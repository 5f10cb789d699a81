/** What the recorded status tells the owner of an instance: how far its passes got, and
    what stopped them. */
module Reports {
  import opened Generators
  import opened Conditions
  import opened Applications
  import opened Hub
  import opened Lifecycle
  import opened Passes
  import opened HubInvariants
  import opened Deletion
  import opened Runs
  import opened Causes
  import opened Writes
  import opened Calls
  import opened DeletionCalls

  // -------- step by step --------

  predicate Reads(st: St, t: ConditionType, s: ConditionStatus, reason: Reason) {
    Get(st.status.conditions, t).status == s && Get(st.status.conditions, t).reason == reason
  }

  // A condition, why it is as it is, and the phase.
  predicate Notes(st: St, t: ConditionType, s: ConditionStatus, reason: Reason, p: Phase) {
    Reads(st, t, s, reason) && st.status.phase == p
  }

  predicate Holds(st: St, t: ConditionType, s: ConditionStatus) { Get(st.status.conditions, t).status == s }

  // One of its conditions is an error; or none is, but its health is bad.
  predicate InError(app: Application) { exists i :: 0 <= i < |app.errors| && app.errors[i] }
  predicate InDecline(app: Application) { app.health == Degraded && !InError(app) }

  ghost predicate DefinitionTold(cfg: Config, env: Env, a: St, r: R) {
    if cfg.secretRef.Some? then
      if r.err == None then Notes(r.st, ClusterInstallSucceeded, True, ClusterInstalled, a.status.phase)
      else r.st.status == a.status
    else if !Holds(a, ClusterDefinitionCreated, False) then r == R(a, None)
    else if r.err == None then Notes(r.st, ClusterDefinitionCreated, True, ApplicationCreated, a.status.phase)
    else Notes(r.st, ClusterDefinitionCreated, False, ClusterDefinitionFailed, ClusterDefinitionFailedPhase)
  }

  ghost predicate ProviderTold(a: St, r: R, p: Option<Provider>) {
    if p == None then
      r.err == None
        && Notes(r.st, ClusterInstallSucceeded, False, ClusterProviderDetectionFailed, ClusterInstallFailedPhase)
    else if r.err.Some? then
      Notes(r.st, ClusterInstallSucceeded, False, ClusterStatusFailed, ClusterInstallFailedPhase)
    else
      || Notes(r.st, ClusterInstallSucceeded, True, ClusterInstalled, ClusterInstallingPhase)
      || Notes(r.st, ClusterInstallSucceeded, False, ClusterInstalling, ClusterInstallingPhase)
  }

  ghost predicate InstallTold(cfg: Config, env: Env, a: St, r: R) {
    if cfg.secretRef.Some? || Holds(a, ClusterDefinitionCreated, False) then r == R(a, None)
    else if !Answered(env, ListDay1) then
      r.err == Some(Generic)
        && Notes(r.st, ClusterInstallSucceeded, False, ApplicationFetchFailed, ClusterInstallFailedPhase)
    else if env.day1 == [] then r.err == Some(AppNotFound) && r.st.status == a.status
    else if InError(env.day1[0]) then
      r.err == None && Notes(r.st, ClusterInstallSucceeded, False, ApplicationError, ClusterInstallFailedPhase)
    else if InDecline(env.day1[0]) then
      r.err == None && Notes(r.st, ClusterInstallSucceeded, False, ApplicationDegraded, ClusterInstallFailedPhase)
    else if !Fine(env.day1[0]) then
      r.err == None && Notes(r.st, ClusterInstallSucceeded, False, ClusterInstalling, ClusterInstallingPhase)
    else if cfg.experimental then r.err == None && r.st.status == a.status.(phase := ClusterInstallingPhase)
    else exists p :: FirstGives(env.day1[0].resources, p) && ProviderTold(a, r, p)
  }

  ghost predicate RegistrationTold(cfg: Config, env: Env, a: St, r: R) {
    if Holds(a, ClusterInstallSucceeded, False) || Holds(a, ManagedClusterCreated, True) then r == R(a, None)
    else if cfg.skipRegistration || !cfg.enableManagedCluster then
      r.err == None && Notes(r.st, ManagedClusterCreated, True, MCSkipped, a.status.phase)
    else if r.err == None then Notes(r.st, ManagedClusterCreated, True, MCCreated, a.status.phase)
    else
      && r.st.status.phase == ManagedClusterFailedPhase
      && (!Answered(env, ListBeforeCreate) ==> Reads(r.st, ManagedClusterCreated, False, MCFailed))
      && (Reads(r.st, ManagedClusterCreated, False, MCFailed) || r.st.status.conditions == a.status.conditions)
  }

  ghost predicate ImportTold(cfg: Config, env: Env, a: St, r: R) {
    if Holds(a, ManagedClusterCreated, False) || Holds(a, ManagedClusterImported, True) then r == R(a, None)
    else if cfg.skipRegistration || !cfg.enableManagedCluster then
      r.err == None && Notes(r.st, ManagedClusterImported, True, MCImportSkipped, a.status.phase)
    else if r.err.Some? then
      Notes(r.st, ManagedClusterImported, False, MCImportFailed, ManagedClusterImportFailedPhase)
    else if LastWantedIsTrue(env.importConditions) then
      Notes(r.st, ManagedClusterImported, True, MCImported, a.status.phase)
    else Notes(r.st, ManagedClusterImported, False, MCImporting, ManagedClusterImportingPhase)
  }

  ghost predicate KlusterletTold(cfg: Config, env: Env, a: St, r: R) {
    if Holds(a, ManagedClusterImported, False) then r == R(a, None)
    else if !cfg.enableKlusterlet || cfg.skipRegistration then
      r.err == None && Notes(r.st, KlusterletAddonCreated, True, KlusterletSkipped, a.status.phase)
    else if r.err.Some? then
      Notes(r.st, KlusterletAddonCreated, False, KlusterletFailed, KlusterletCreateFailedPhase)
    else Notes(r.st, KlusterletAddonCreated, True, KlusterletCreated, a.status.phase)
  }

  ghost predicate ConsoleTold(cfg: Config, env: Env, a: St, r: R) {
    if Holds(a, ManagedClusterImported, False) then r == R(a, None)
    else if cfg.skipRegistration || !cfg.enableManagedCluster then
      r.err == None && Notes(r.st, ConsoleURLRetrieved, True, ConsoleURLSkipped, a.status.phase)
    else if !Answered(env, ListForConsole) then
      r.err.Some? && Notes(r.st, ConsoleURLRetrieved, False, ConsoleURLFailed, a.status.phase)
    else if r.err.Some? || env.consoleClaims == [] then r.st.status == a.status
    else
      && Notes(r.st, ConsoleURLRetrieved, True, ConsoleURLSucceeded, a.status.phase)
      && r.st.status.consoleURL == env.consoleClaims[|env.consoleClaims| - 1]
  }

  ghost predicate ArgoTold(cfg: Config, env: Env, a: St, r: R) {
    if Holds(a, ManagedClusterImported, False) || Holds(a, ArgoClusterAdded, True) then r == R(a, None)
    else
      && (r.st.status.firstLogin == a.status.firstLogin ||
            (a.status.firstLogin == None && r.st.status.firstLogin == Some(env.now)))
      && match r.err
         case None =>
           r.st.status.firstLogin.Some? && Notes(r.st, ArgoClusterAdded, True, ArgoClusterCreated, a.status.phase)
         case Some(LoginPending) =>
           && !env.login && r.st.status.firstLogin.Some?
           && env.loginNow < r.st.status.firstLogin.value + cfg.loginTimeout
           && Notes(r.st, ArgoClusterAdded, False, ArgoClusterLoginPending, ClusterLoginPendingPhase)
         case Some(_) =>
           && (!env.login && Answered(env, GetKubeconfigForArgo) && cfg.Me() in r.st.hub.kubeconfigs ==>
                 r.st.status.firstLogin.Some? && env.loginNow >= r.st.status.firstLogin.value + cfg.loginTimeout)
           && Notes(r.st, ArgoClusterAdded, False, ArgoClusterFailed, ArgoClusterFailedPhase)
  }

  ghost predicate SetupCreateTold(cfg: Config, env: Env, a: St, r: R) {
    if Holds(a, ArgoClusterAdded, False) || Holds(a, ClusterSetupCreated, True) then r == R(a, None)
    else if cfg.setups == [] then
      r.err == None && Notes(r.st, ClusterSetupCreated, True, ClusterSetupNotSpecified, a.status.phase)
    else if r.err.Some? then
      Notes(r.st, ClusterSetupCreated, False, ClusterSetupCreationFailed, ClusterSetupCreateFailedPhase)
    else Notes(r.st, ClusterSetupCreated, True, SetupCreated, a.status.phase)
  }

  predicate AllFlawless(apps: seq<Application>) { forall i | 0 <= i < |apps| :: Flawless(apps[i]) }
  predicate SomeInError(apps: seq<Application>) { exists i :: 0 <= i < |apps| && InError(apps[i]) }
  predicate SomeInDecline(apps: seq<Application>) { exists i :: 0 <= i < |apps| && InDecline(apps[i]) }

  // Application by application: its setup, and how that one is doing.
  predicate Lists(apps: seq<Application>, xs: seq<SetupStatus>) {
    && |xs| == |apps|
    && forall i | 0 <= i < |apps| ::
         && xs[i].name == apps[i].setup
         && match xs[i].status
            case AppError => InError(apps[i])
            case AppDegraded => InDecline(apps[i])
            case AppHealthy => Flawless(apps[i])
            case AppSyncRunning => !InError(apps[i]) && !InDecline(apps[i]) && !Flawless(apps[i])
  }

  ghost predicate SetupTold(cfg: Config, env: Env, a: St, r: R) {
    if Holds(a, ClusterSetupCreated, False) || Holds(a, ClusterSetupSucceeded, True) then r == R(a, None)
    else if cfg.setups == [] then
      r.err == None && Notes(r.st, ClusterSetupSucceeded, True, ClusterSetupNotDefined, a.status.phase)
    else if !Answered(env, ListSetupApps) then
      r.err.Some? && Notes(r.st, ClusterSetupSucceeded, False, ClusterSetupFetchFailed, ClusterSetupFailedPhase)
    else if env.day2 == [] then
      r.err.Some? && Notes(r.st, ClusterSetupSucceeded, False, ClusterSetupAppsNotFound, ClusterSetupFailedPhase)
    else
      && r.err == None && Lists(env.day2, r.st.status.clusterSetup)
      && if AllFlawless(env.day2) then
           Notes(r.st, ClusterSetupSucceeded, True, SetupSucceeded, ClusterSetupRunningPhase)
         else if SomeInError(env.day2) then
           Notes(r.st, ClusterSetupSucceeded, False, ClusterSetupError, ClusterSetupFailedPhase)
         else if SomeInDecline(env.day2) then
           Notes(r.st, ClusterSetupSucceeded, False, ClusterSetupDegraded, ClusterSetupDegradedPhase)
         else Notes(r.st, ClusterSetupSucceeded, False, ClusterSetupRunning, ClusterSetupRunningPhase)
  }

  // What was known stays in front, and every secret that was found is there.
  predicate Extends(known: seq<string>, found: seq<string>, xs: seq<string>) {
    && known <= xs && (forall x | x in found :: x in xs)
    && (forall i | |known| <= i < |xs| :: xs[i] in found && xs[i] !in xs[..i])
  }

  ghost predicate CredentialsTold(cfg: Config, env: Env, a: St, r: R) {
    if Holds(a, ClusterSetupSucceeded, False) then r == R(a, None)
    else if r.err.Some? then r.st.status.phase == CredentialsFailedPhase
    else
      && r.st.status.phase == ReadyPhase && r.st.status.credentialRefs
      && Answered(env, ListSetupSecrets) && Answered(env, ReconcileRoles)
      && Extends(a.status.setupSecrets, env.setupSecrets, r.st.status.setupSecrets)
      && if a.status.apiServerURL != "" then r.st.status.apiServerURL == a.status.apiServerURL
         else
           && Answered(env, GetKubeconfigForCredentials) && cfg.Me() in r.st.hub.kubeconfigs
           && r.st.status.apiServerURL == r.st.hub.kubeconfigs[cfg.Me()]
  }

  // What step `k`, begun in `a`, has put down when it is done.
  ghost predicate Told(cfg: Config, env: Env, a: St, r: R, k: nat) {
    match k
    case 0 => DefinitionTold(cfg, env, a, r)
    case 1 => InstallTold(cfg, env, a, r)
    case 2 => RegistrationTold(cfg, env, a, r)
    case 3 => ImportTold(cfg, env, a, r)
    case 4 => KlusterletTold(cfg, env, a, r)
    case 5 => ConsoleTold(cfg, env, a, r)
    case 6 => ArgoTold(cfg, env, a, r)
    case 7 => SetupCreateTold(cfg, env, a, r)
    case 8 => SetupTold(cfg, env, a, r)
    case _ => CredentialsTold(cfg, env, a, r)
  }

  lemma DefinitionTells(cfg: Config, env: Env, st: St)
    ensures DefinitionTold(cfg, env, st, Stage(cfg, env, st, 0))
  {
    hide At, CreateDay1, CreateClusterSecrets, OnlyChanges;
  }

  lemma ProviderTells(cfg: Config, env: Env, st: St, app: Application)
    requires st.status.phase == ClusterInstallingPhase
    ensures ProviderTold(st, ReconcileProvider(cfg, env, st, app), Detect(app.resources, app.resources))
  {
    hide GetClusterStatus, Detect, OnlyChanges;
  }

  lemma StatusTells(cfg: Config, env: Env, st: St)
    requires cfg.secretRef.None?
    ensures InstallTold(cfg, env, st, ReconcileClusterStatus(cfg, env, st)) ||
        (!Holds(st, ClusterDefinitionCreated, False) && !Answered(env, ListDay1)
          && ReconcileClusterStatus(cfg, env, st).err == Some(Generic)
          && Reads(ReconcileClusterStatus(cfg, env, st).st, ClusterInstallSucceeded, False, ApplicationFetchFailed))
  {
    hide At, ReconcileProvider, OnlyChanges, FirstGives, Classify, ProviderTold, Detect;
    if env.day1 != [] {
      var app := env.day1[0];
      ClassifiedByFields(app, false);
      DetectedByFields(app.resources);
      var st1 := SetPhase(st.(hub := Handled(cfg, env, st.hub, ListDay1)), ClusterInstallingPhase);
      ProviderTells(cfg, env, st1, app);
      WithPhase(st, ReconcileProvider(cfg, env, st1, app), Detect(app.resources, app.resources));
    }
  }

  lemma InstallTells(cfg: Config, env: Env, st: St)
    ensures InstallTold(cfg, env, st, Stage(cfg, env, st, 1))
  {
    hide ReconcileClusterStatus, FirstGives, ProviderTold, InError, InDecline, Fine;
    if cfg.secretRef.None? {
      var r := ReconcileClusterStatus(cfg, env, st);
      StatusTells(cfg, env, st);
      forall p ensures ProviderTold(st, r, p) ==> ProviderTold(st, OnError(r, ClusterInstallFailedPhase), p) {
        WithPhase(st, r, p);
      }
    }
  }

  // A failed look at the provider has set the phase itself already.
  lemma WithPhase(a: St, r: R, p: Option<Provider>)
    ensures forall b :: ProviderTold(b, r, p) <==> ProviderTold(a, r, p)
    ensures ProviderTold(a, r, p) ==> ProviderTold(a, OnError(r, ClusterInstallFailedPhase), p)
  {}

  lemma RegistrationTells(cfg: Config, env: Env, st: St)
    ensures RegistrationTold(cfg, env, st, Stage(cfg, env, st, 2))
  {
    hide At, FirstCluster, OnlyChanges, NameTaken, ClusterLabels;
  }

  lemma ImportTells(cfg: Config, env: Env, st: St)
    ensures ImportTold(cfg, env, st, Stage(cfg, env, st, 3))
  {
    hide EnsureImportSecret, OnlyChanges, LastIsTrue, LastWantedIsTrue;
    LastByFields(env.importConditions);
  }

  lemma KlusterletTells(cfg: Config, env: Env, st: St)
    ensures KlusterletTold(cfg, env, st, Stage(cfg, env, st, 4))
  {
    hide EnsureKlusterlet, OnlyChanges;
  }

  lemma ConsoleTells(cfg: Config, env: Env, st: St)
    ensures ConsoleTold(cfg, env, st, Stage(cfg, env, st, 5))
  {
    hide At, FirstCluster, OnlyChanges;
  }

  lemma AddTells(cfg: Config, env: Env, st: St)
    ensures var r := AddClusterToArgo(cfg, env, st);
      && (r.st.status.firstLogin == st.status.firstLogin ||
            (st.status.firstLogin == None && r.st.status.firstLogin == Some(env.now)))
      && r.st.status.conditions == st.status.conditions && r.st.status.phase == st.status.phase
      && (r.err == None ==> r.st.status.firstLogin.Some?)
      && (r.err == Some(LoginPending) ==> !env.login)
      && (r.err.Some? && r.err != Some(LoginPending) && !env.login && Answered(env, GetKubeconfigForArgo)
            && cfg.Me() in r.st.hub.kubeconfigs ==>
            r.st.status.firstLogin.Some? && env.loginNow >= r.st.status.firstLogin.value + cfg.loginTimeout)
  {
    hide At, FinishArgo;
  }

  lemma ArgoTells(cfg: Config, env: Env, st: St)
    ensures ArgoTold(cfg, env, st, Stage(cfg, env, st, 6))
  {
    hide AddClusterToArgo, OnlyChanges;
    AddTells(cfg, env, st);
  }

  lemma SetupCreateTells(cfg: Config, env: Env, st: St)
    ensures SetupCreateTold(cfg, env, st, Stage(cfg, env, st, 7))
  {
    hide CreateDay2, OnlyChanges;
  }

  lemma {:induction false} StatusesList(apps: seq<Application>)
    ensures Lists(apps, SetupStatuses(apps))
  {
    hide Classify, Flawless, InError, InDecline;
    if apps != [] {
      StatusesList(apps[1..]);
      OneByFields(apps[0]);
      var xs, rest := SetupStatuses(apps), SetupStatuses(apps[1..]);
      assert xs == [SetupStatus(apps[0].setup, Classify(apps[0], true))] + rest;
      assert forall i | 0 < i < |apps| :: apps[i] == apps[1..][i - 1] && xs[i] == rest[i - 1];
    }
  }

  lemma OneByFields(app: Application)
    ensures Classify(app, true) == AppError <==> InError(app)
    ensures Classify(app, true) == AppDegraded <==> InDecline(app)
    ensures Classify(app, true) == AppHealthy <==> Flawless(app)
  {
    ClassifiedByFields(app, true);
  }

  lemma AllByFields(apps: seq<Application>)
    ensures AllHealthy(apps) <==> AllFlawless(apps)
    ensures SomeAre(apps, AppError) <==> SomeInError(apps)
    ensures SomeAre(apps, AppDegraded) <==> SomeInDecline(apps)
  {
    hide Classify, Flawless, InError, InDecline;
    forall i | 0 <= i < |apps|
      ensures Classify(apps[i], true) == AppError <==> InError(apps[i])
      ensures Classify(apps[i], true) == AppDegraded <==> InDecline(apps[i])
      ensures Classify(apps[i], true) == AppHealthy <==> Flawless(apps[i])
    {
      OneByFields(apps[i]);
    }
  }

  lemma SetupTells(cfg: Config, env: Env, st: St)
    ensures SetupTold(cfg, env, st, Stage(cfg, env, st, 8))
  {
    hide At, OnlyChanges, AllHealthy, SomeAre, SetupStatuses, Lists, AllFlawless, SomeInError, SomeInDecline;
    StatusesList(env.day2);
    AllByFields(env.day2);
  }

  lemma {:induction false} SecretsExtend(known: seq<string>, found: seq<string>)
    ensures Extends(known, found, AddSecrets(known, found))
    decreases |found|
  {
    if found != [] {
      var next := if found[0] in known then known else known + [found[0]];
      SecretsExtend(next, found[1..]);
      var xs := AddSecrets(known, found);
      assert next <= xs && known == next[..|known|] == xs[..|known|];
      assert forall x :: x in found <==> x == found[0] || x in found[1..];
      forall i | |known| <= i < |xs| ensures xs[i] in found && xs[i] !in xs[..i] {
        if i < |next| {
          assert xs[i] == next[i] && xs[..i] == known;
        }
      }
    }
  }

  lemma CredentialsTell(cfg: Config, env: Env, st: St)
    ensures CredentialsTold(cfg, env, st, Stage(cfg, env, st, 9))
  {
    hide Rely, Extends, AddSecrets;
    SecretsExtend(st.status.setupSecrets, env.setupSecrets);
    var w := Handled(cfg, env, st.hub, GetKubeconfigForCredentials);
    KubeconfigStays(cfg, env, w, ListSetupSecrets);
    KubeconfigStays(cfg, env, Handled(cfg, env, w, ListSetupSecrets), ReconcileRoles);
  }

  lemma KubeconfigStays(cfg: Config, env: Env, w: Server, s: Site)
    ensures cfg.Me() in w.kubeconfigs ==>
      var n := Handled(cfg, env, w, s); cfg.Me() in n.kubeconfigs && n.kubeconfigs[cfg.Me()] == w.kubeconfigs[cfg.Me()]
  {}

  /** What each step puts down, told by what the step was given and how its calls turned out. */
  lemma EveryStepTells(cfg: Config, env: Env, st: St, k: nat)
    requires k < STAGE_COUNT
    ensures Told(cfg, env, st, Stage(cfg, env, st, k), k)
  {
    hide Stage, DefinitionTold, InstallTold, RegistrationTold, ImportTold, KlusterletTold, ConsoleTold, ArgoTold,
      SetupCreateTold, SetupTold, CredentialsTold;
    match k {
      case 0 => DefinitionTells(cfg, env, st);
      case 1 => InstallTells(cfg, env, st);
      case 2 => RegistrationTells(cfg, env, st);
      case 3 => ImportTells(cfg, env, st);
      case 4 => KlusterletTells(cfg, env, st);
      case 5 => ConsoleTells(cfg, env, st);
      case 6 => ArgoTells(cfg, env, st);
      case 7 => SetupCreateTells(cfg, env, st);
      case 8 => SetupTells(cfg, env, st);
      case _ => CredentialsTell(cfg, env, st);
    }
  }

  // -------- the beginning --------

  /** A new instance starts out pending: each of its nine conditions is False, with the
      reason that says what it waits for, as of now; and nothing else is known of it. */
  lemma StartsPending(cfg: Config, env: Env, w: Server)
    ensures var s := PassStart(cfg, env, Fresh, w).status;
      && s.phase == PendingPhase && s.apiServerURL == "" && !s.credentialRefs && s.managedCluster == ""
      && s.consoleURL == "" && s.setupSecrets == [] && s.clusterSetup == [] && s.firstLogin == None
      && s.conditions.definitionCreated == Mark(False, ClusterDefinitionPending, env.now)
      && s.conditions.installSucceeded == Mark(False, ClusterDefinitionNotCreated, env.now)
      && s.conditions.clusterCreated == Mark(False, MCPending, env.now)
      && s.conditions.clusterImported == Mark(False, MCImportPending, env.now)
      && s.conditions.klusterletCreated == Mark(False, KlusterletCreatePending, env.now)
      && s.conditions.argoAdded == Mark(False, ArgoClusterPending, env.now)
      && s.conditions.setupCreated == Mark(False, ClusterNotInstalled, env.now)
      && s.conditions.setupSucceeded == Mark(False, ClusterSetupNotCreated, env.now)
      && s.conditions.consoleURL == Mark(False, ConsoleURLPending, env.now)
  {
    hide Handled;
  }

  // -------- where a pass stopped --------

  // The step that ends a pass which is in `st` before step `k`; after the last step if none does.
  function Stop(cfg: Config, env: Env, st: St, k: nat): (s: nat)
    requires k <= STAGE_COUNT
    ensures k <= s <= STAGE_COUNT
    decreases STAGE_COUNT - k
  {
    if k == STAGE_COUNT || Stage(cfg, env, st, k).err.Some? then k else Stop(cfg, env, Stage(cfg, env, st, k).st, k + 1)
  }

  // The phases by which a failed step can be told.
  function StepOf(p: Phase): Option<nat> {
    match p
    case ClusterDefinitionFailedPhase => Some(0)
    case ClusterInstallFailedPhase => Some(1)
    case ManagedClusterFailedPhase => Some(2)
    case ManagedClusterImportFailedPhase => Some(3)
    case KlusterletCreateFailedPhase => Some(4)
    case ArgoClusterFailedPhase => Some(6)
    case ClusterLoginPendingPhase => Some(6)
    case ClusterSetupCreateFailedPhase => Some(7)
    case ClusterSetupFailedPhase => Some(8)
    case CredentialsFailedPhase => Some(9)
    case _ => None
  }

  // The failures that leave the phase alone: of the console look-up, of the secret
  // reference, and that there is no application yet.
  predicate Silent(cfg: Config, k: nat, fault: Fault) {
    k == 5 || (k == 0 && cfg.secretRef.Some?) || fault == AppNotFound
  }

  lemma FailureNames(cfg: Config, env: Env, a: St, r: R, k: nat)
    requires k < STAGE_COUNT && Told(cfg, env, a, r, k) && r.err.Some? && !Silent(cfg, k, r.err.value)
    ensures StepOf(r.st.status.phase) == Some(k)
  {
    hide Reads, InError, InDecline, Fine, FirstGives, Flawless, Lists, Extends, LastWantedIsTrue;
  }

  /** The phase that a failed pass records names the step it stopped at, unless the failure
      is one of the silent ones. */
  lemma {:induction false} PhaseNamesTheStep(cfg: Config, env: Env, st: St, k: nat)
    requires k <= STAGE_COUNT
    ensures var r, s := Stages(cfg, env, st, k), Stop(cfg, env, st, k);
      && (r.err.Some? <==> s < STAGE_COUNT)
      && (r.err.Some? && !Silent(cfg, s, r.err.value) ==> StepOf(r.st.status.phase) == Some(s))
    decreases STAGE_COUNT - k
  {
    hide Stage, Told, StepOf;
    if k < STAGE_COUNT {
      var r := Stage(cfg, env, st, k);
      if r.err.Some? {
        EveryStepTells(cfg, env, st, k);
        if !Silent(cfg, k, r.err.value) {
          FailureNames(cfg, env, st, r, k);
        }
      } else {
        PhaseNamesTheStep(cfg, env, r.st, k + 1);
      }
    }
  }

  // -------- over a life --------

  // What a pass must have met with to record the phase.
  ghost predicate Accounts(cfg: Config, env: Env, p: Phase) {
    match p
    case FailedPhase => !Answered(env, GetTemplate) || !env.templateFound
    case ClusterDefinitionFailedPhase => cfg.secretRef.None?
    case ClusterInstallingPhase =>
      cfg.secretRef.None? && env.day1 != [] && !InError(env.day1[0]) && !InDecline(env.day1[0])
    case ClusterInstallFailedPhase =>
      && cfg.secretRef.None?
      && (!Answered(env, ListDay1) || (
            env.day1 != [] &&
            (InError(env.day1[0]) || InDecline(env.day1[0]) || (Fine(env.day1[0]) && !cfg.experimental))))
    case ManagedClusterFailedPhase => cfg.enableManagedCluster && !cfg.skipRegistration
    case ManagedClusterImportFailedPhase => cfg.enableManagedCluster && !cfg.skipRegistration
    case ManagedClusterImportingPhase =>
      cfg.enableManagedCluster && !cfg.skipRegistration && !LastWantedIsTrue(env.importConditions)
    case KlusterletCreateFailedPhase => cfg.enableKlusterlet && !cfg.skipRegistration
    case ClusterLoginPendingPhase => !env.login
    case ClusterSetupCreateFailedPhase => cfg.setups != []
    case ClusterSetupFailedPhase =>
      cfg.setups != [] && (!Answered(env, ListSetupApps) || env.day2 == [] || SomeInError(env.day2))
    case ClusterSetupDegradedPhase => cfg.setups != [] && SomeInDecline(env.day2) && !SomeInError(env.day2)
    case ClusterSetupRunningPhase =>
      && cfg.setups != [] && env.day2 != [] && !AllFlawless(env.day2)
      && !SomeInDecline(env.day2) && !SomeInError(env.day2)
    case ReadyPhase => Answered(env, ListSetupSecrets) && Answered(env, ReconcileRoles)
    case PendingPhase => false
    case _ => true
  }

  // Before step `k` of a pass that found phase `p`: the phase is still that one, or is
  // accounted for, or is that of a setup that is done and about to be Ready.
  ghost predicate Accounted(cfg: Config, env: Env, p: Phase, b: St, k: nat) {
    || b.status.phase == p || Accounts(cfg, env, b.status.phase)
    || (k == 9 && b.status.phase == ClusterSetupRunningPhase && Holds(b, ClusterSetupSucceeded, True))
  }

  lemma InstallAccounts(cfg: Config, env: Env, p: Phase, a: St, r: R, k: nat)
    requires k < 2 && Told(cfg, env, a, r, k) && Accounted(cfg, env, p, a, k)
    ensures Accounted(cfg, env, p, r.st, if r.err == None then k + 1 else STAGE_COUNT)
  {
    hide InError, InDecline, Fine, FirstGives, Flawless, Lists, Extends, LastWantedIsTrue, SomeInError, SomeInDecline,
      AllFlawless, Reads;
  }

  lemma ClusterAccounts(cfg: Config, env: Env, p: Phase, a: St, r: R, k: nat)
    requires 2 <= k < 6 && Told(cfg, env, a, r, k) && Accounted(cfg, env, p, a, k)
    ensures Accounted(cfg, env, p, r.st, if r.err == None then k + 1 else STAGE_COUNT)
  {
    hide InError, InDecline, Fine, FirstGives, Flawless, Lists, Extends, LastWantedIsTrue, SomeInError, SomeInDecline,
      AllFlawless, Reads;
  }

  lemma SetupAccounts(cfg: Config, env: Env, p: Phase, a: St, r: R, k: nat)
    requires 6 <= k < STAGE_COUNT && Told(cfg, env, a, r, k) && Accounted(cfg, env, p, a, k)
    ensures Accounted(cfg, env, p, r.st, if r.err == None then k + 1 else STAGE_COUNT)
  {
    hide InError, InDecline, Fine, FirstGives, Flawless, Lists, Extends, LastWantedIsTrue, SomeInError, SomeInDecline,
      AllFlawless;
  }

  lemma StepAccounts(cfg: Config, env: Env, p: Phase, a: St, r: R, k: nat)
    requires k < STAGE_COUNT && Told(cfg, env, a, r, k) && Accounted(cfg, env, p, a, k)
    ensures Accounted(cfg, env, p, r.st, if r.err == None then k + 1 else STAGE_COUNT)
  {
    hide Told, Accounted;
    if k < 2 {
      InstallAccounts(cfg, env, p, a, r, k);
    } else if k < 6 {
      ClusterAccounts(cfg, env, p, a, r, k);
    } else {
      SetupAccounts(cfg, env, p, a, r, k);
    }
  }

  lemma {:induction false} StagesAccount(cfg: Config, env: Env, p: Phase, st: St, k: nat)
    requires k <= STAGE_COUNT && Accounted(cfg, env, p, st, k)
    ensures Accounted(cfg, env, p, Stages(cfg, env, st, k).st, STAGE_COUNT)
    decreases STAGE_COUNT - k
  {
    hide Stage, Told, Accounted;
    if k < STAGE_COUNT {
      var r := Stage(cfg, env, st, k);
      EveryStepTells(cfg, env, st, k);
      StepAccounts(cfg, env, p, st, r, k);
      if r.err == None {
        StagesAccount(cfg, env, p, r.st, k + 1);
      }
    }
  }

  lemma PassAccounts(cfg: Config, env: Env, s: Stored, w: Server)
    ensures var p := Pass(cfg, env, s, w).st.status.phase;
      p == PendingPhase || (s.Saved? && p == s.status.phase) || Accounts(cfg, env, p)
  {
    hide Stages, Handled, InError, InDecline, Fine, SomeInError, SomeInDecline, AllFlawless, LastWantedIsTrue;
    var st := PassStart(cfg, env, s, w);
    StagesAccount(cfg, env, st.status.phase, st, 0);
  }

  ghost predicate Shown(l: Life, p: Phase) { l.stored.Saved? && l.stored.status.phase == p }

  lemma StepShows(cfg: Config, l: Life, e: Event, p: Phase)
    requires p != PendingPhase && !Shown(l, p) && Shown(Step(cfg, l, e), p)
    ensures e.Reconcile? && Accounts(cfg, e.env, p)
  {
    hide Pass, DeletePass, Rely, Accounts;
    if e.Reconcile? && l.end.Alive? && !l.deleting {
      PassAccounts(cfg, e.env, l.stored, l.hub);
    }
  }

  /** In every life, every phase that is recorded (but the one it starts with) has been
      accounted for by some pass: an importing cluster had not reported its import, a failed
      setup had an application in error or could not be listed, and so on for all of them. */
  lemma {:induction false} EveryPhaseIsAccountedFor(cfg: Config, l: Life, events: seq<Event>, p: Phase)
    requires p != PendingPhase && !Shown(l, p) && Shown(Run(cfg, l, events), p)
    ensures exists i :: 0 <= i < |events| && events[i].Reconcile? && Accounts(cfg, events[i].env, p)
    decreases |events|
  {
    hide Step, Shown, Accounts;
    if events != [] {
      var n := Step(cfg, l, events[0]);
      if Shown(n, p) {
        StepShows(cfg, l, events[0], p);
      } else {
        EveryPhaseIsAccountedFor(cfg, n, events[1..], p);
        var i :| 0 <= i < |events[1..]| && events[1..][i].Reconcile? && Accounts(cfg, events[1..][i].env, p);
        assert events[i + 1] == events[1..][i];
      }
    }
  }

  // -------- the recorded URL --------

  // The kubeconfig of the instance is there as it was.
  predicate Same(cfg: Config, w: Server, n: Server) {
    cfg.Me() in w.kubeconfigs ==> cfg.Me() in n.kubeconfigs && n.kubeconfigs[cfg.Me()] == w.kubeconfigs[cfg.Me()]
  }

  predicate UrlIsReal(cfg: Config, s: Status, w: Server) {
    s.apiServerURL != "" ==> cfg.Me() in w.kubeconfigs && w.kubeconfigs[cfg.Me()] == s.apiServerURL
  }

  lemma CallKeepsKubeconfig(cfg: Config, may: Powers, w: Server, c: Call)
    requires Rely(cfg.Me(), w, c.before) && Legal(cfg, may, c.before, c.change)
    ensures Same(cfg, w, Apply(cfg, c.before, c.change))
  {
    hide Without, WithoutSecret, WithoutCluster, Fits, HasOwn, Target, FirstCluster, MySecrets, MyClusters, NameTaken,
      SecretNamed, ServerOk, Own;
  }

  lemma {:induction false} TraceKeepsKubeconfig(cfg: Config, may: Powers, w: Server, calls: seq<Call>, n: Server)
    requires Trace(cfg, may, w, calls, n)
    ensures Same(cfg, w, n)
    decreases |calls|
  {
    hide Rely, Legal, Apply;
    if calls != [] {
      CallKeepsKubeconfig(cfg, may, w, calls[0]);
      TraceKeepsKubeconfig(cfg, may, Apply(cfg, calls[0].before, calls[0].change), calls[1..], n);
    }
  }

  lemma StageUrl(cfg: Config, env: Env, st: St, k: nat)
    requires k < STAGE_COUNT && StatusInv(st) && ServerOk(st.hub) && UrlIsReal(cfg, st.status, st.hub)
    ensures var n := Stage(cfg, env, st, k).st; StatusInv(n) && ServerOk(n.hub) && UrlIsReal(cfg, n.status, n.hub)
  {
    hide Stage, StageCalls, Trace, ServerOk, Told;
    var r := Stage(cfg, env, st, k);
    StageLeads(cfg, env, st, k);
    TraceKeepsKubeconfig(cfg, PowersAt(st, k), st.hub, StageCalls(cfg, env, st, k), r.st.hub);
    StageSteps(cfg, env, st, k);
    StepAdvances(cfg, st, r.st, r.err == None, k);
    EveryStepTells(cfg, env, st, k);
    if k == 9 {
      PublishedUrl(cfg, env, st);
    }
  }

  lemma PublishedUrl(cfg: Config, env: Env, st: St)
    requires UrlIsReal(cfg, st.status, st.hub) && ServerOk(st.hub)
    ensures var n := Stage(cfg, env, st, 9).st; UrlIsReal(cfg, n.status, n.hub)
  {
    hide Rely, AddSecrets, ServerOk;
    var w := Handled(cfg, env, st.hub, GetKubeconfigForCredentials);
    KubeconfigStays(cfg, env, st.hub, GetKubeconfigForCredentials);
    KubeconfigStays(cfg, env, st.hub, ListSetupSecrets);
    KubeconfigStays(cfg, env, Handled(cfg, env, st.hub, ListSetupSecrets), ReconcileRoles);
    KubeconfigStays(cfg, env, w, ListSetupSecrets);
    KubeconfigStays(cfg, env, Handled(cfg, env, w, ListSetupSecrets), ReconcileRoles);
  }

  lemma {:induction false} StagesUrl(cfg: Config, env: Env, st: St, k: nat)
    requires k <= STAGE_COUNT && StatusInv(st) && ServerOk(st.hub) && UrlIsReal(cfg, st.status, st.hub)
    ensures var n := Stages(cfg, env, st, k).st; UrlIsReal(cfg, n.status, n.hub)
    decreases STAGE_COUNT - k
  {
    hide Stage, StatusInv, ServerOk;
    if k < STAGE_COUNT {
      StageUrl(cfg, env, st, k);
      if Stage(cfg, env, st, k).err == None {
        StagesUrl(cfg, env, Stage(cfg, env, st, k).st, k + 1);
      }
    }
  }

  lemma PassUrl(cfg: Config, env: Env, s: Stored, w: Server)
    requires StoredInv(s, w) && ServerOk(w) && (s.Saved? ==> UrlIsReal(cfg, s.status, w))
    ensures var r := Pass(cfg, env, s, w); UrlIsReal(cfg, r.st.status, r.st.hub) && Same(cfg, w, r.st.hub)
  {
    StartInv(cfg, env, s, w);
    hide Stages, Rely, ServerOk, StatusInv, StoredInv, Trace, PassCalls, Pass;
    PassLeads(cfg, env, s, w);
    TraceKeepsKubeconfig(cfg, PASS, w, PassCalls(cfg, env, s, w), Pass(cfg, env, s, w).st.hub);
    KubeconfigStays(cfg, env, w, GetTemplate);
    HandledIsRely(cfg, env, w, GetTemplate);
    StagesUrl(cfg, env, PassStart(cfg, env, s, w), 0);
    PassIs(cfg, env, s, w);
  }

  lemma PassIs(cfg: Config, env: Env, s: Stored, w: Server)
    ensures var st := PassStart(cfg, env, s, w);
      Pass(cfg, env, s, w) == if Answered(env, GetTemplate) && env.templateFound then Stages(cfg, env, st, 0)
        else R(SetPhase(st, FailedPhase), Some(Generic))
  {
    hide Stages, PassStart;
  }

  ghost predicate LifeUrl(cfg: Config, l: Life) { l.stored.Saved? ==> UrlIsReal(cfg, l.stored.status, l.hub) }

  lemma StepUrl(cfg: Config, l: Life, e: Event)
    requires LifeInv(cfg, l) && LifeUrl(cfg, l)
    ensures LifeUrl(cfg, Step(cfg, l, e))
  {
    assert ServerOk(l.hub) && StoredInv(l.stored, l.hub);
    hide LifeInv, Pass, DeletePass, DeletePassCalls, Trace, ServerOk, StoredInv;
    match e
    case Others(n) => hide MyClusters, MySecrets, Own;
    case Reconcile(env, recorded) =>
      hide Rely;
      if l.end.Alive? && l.deleting {
        DeletePassLeads(cfg, env, l.hub);
        TraceKeepsKubeconfig(cfg, Deleting, l.hub, DeletePassCalls(cfg, env, l.hub), DeletePass(cfg, env, l.hub).0);
      } else if l.end.Alive? {
        PassUrl(cfg, env, l.stored, l.hub);
      }
    case _ =>
  }

  /** In every life, whatever fails: a recorded API server URL is the one that the instance's
      own kubeconfig holds. */
  lemma {:induction false} RecordedUrlIsReal(cfg: Config, l: Life, events: seq<Event>)
    requires LifeInv(cfg, l) && LifeUrl(cfg, l)
    ensures LifeUrl(cfg, Run(cfg, l, events))
    decreases |events|
  {
    hide LifeInv, LifeUrl, Step;
    if events != [] {
      StepKeeps(cfg, l, events[0]);
      StepUrl(cfg, l, events[0]);
      RecordedUrlIsReal(cfg, Step(cfg, l, events[0]), events[1..]);
    }
  }
}
