/** The reconciler in the form it has: steps that change the instance's status and the
    server in place.

    Each is shown to do what the function of the same name says. */
module Reconciler {
  import opened Conditions
  import opened Applications
  import opened Hub
  import opened Lifecycle
  import opened Passes
  import opened Deletion
  import opened Client
  import ApplicationSets
  import ManagedClusters
  import Providers

  class ClusterTemplateInstanceReconciler {
    const c: ApiClient

    constructor (c: ApiClient)
      ensures this.c == c
    {
      this.c := c;
    }

    ghost function View(cti: ClusterTemplateInstance): St
      reads c, cti
    {
      St(cti.View(), c.hub)
    }

    // -------- cluster definition and installation --------

    method ReconcileClusterCreate(cti: ClusterTemplateInstance) returns (err: Option<Fault>)
      requires cti.Valid()
      modifies c, cti, cti.conditions
      ensures cti.Valid()
      ensures R(View(cti), err) == Lifecycle.ReconcileClusterCreate(c.cfg, c.env, old(View(cti)))
    {
      hide Shows, Write, CreateDay1;
      var created := cti.StatusOfCondition(ClusterDefinitionCreated);
      if created == False {
        var ok := ApplicationSets.CreateDay1Application(c);
        if !ok {
          cti.SetCondition(ClusterDefinitionCreated, False, ClusterDefinitionFailed, c.env.now);
          return Some(Generic);
        }
        cti.SetCondition(ClusterDefinitionCreated, True, ApplicationCreated, c.env.now);
      }
      err := None;
    }

    // The install condition is set to False and the phase says why.
    method NotInstalledYet(cti: ClusterTemplateInstance, reason: Reason, p: Phase)
      requires cti.Valid()
      modifies cti, cti.conditions
      ensures cti.Valid()
      ensures View(cti) == NotInstalled(old(View(cti)), reason, p, c.env.now)
    {
      hide Shows, Write;
      cti.SetCondition(ClusterInstallSucceeded, False, reason, c.env.now);
      cti.phase := p;
    }

    method ReconcileClusterProvider(cti: ClusterTemplateInstance, app: Application) returns (err: Option<Fault>)
      requires cti.Valid()
      modifies c, cti, cti.conditions
      ensures cti.Valid()
      ensures R(View(cti), err) == ReconcileProvider(c.cfg, c.env, old(View(cti)), app)
    {
      hide Shows, Write, GetClusterStatus, Detect;
      var provider := GetClusterProvider(app);
      if provider == None {
        NotInstalledYet(cti, ClusterProviderDetectionFailed, ClusterInstallFailedPhase);
        return None;
      }
      var ready := Providers.GetStatus(c, provider.value);
      match ready {
        case StatusError =>
          NotInstalledYet(cti, ClusterStatusFailed, ClusterInstallFailedPhase);
          return Some(Generic);
        case NotReady =>
          NotInstalledYet(cti, ClusterInstalling, ClusterInstallingPhase);
        case IsReady =>
          cti.SetCondition(ClusterInstallSucceeded, True, ClusterInstalled, c.env.now);
      }
      err := None;
    }

    method ReconcileClusterStatus(cti: ClusterTemplateInstance) returns (err: Option<Fault>)
      requires cti.Valid()
      modifies c, cti, cti.conditions
      ensures cti.Valid()
      ensures R(View(cti), err) == Lifecycle.ReconcileClusterStatus(c.cfg, c.env, old(View(cti)))
    {
      hide Shows, Write, ReconcileProvider, Classify, Handled;
      var created := cti.StatusOfCondition(ClusterDefinitionCreated);
      if created == False {
        return None;
      }
      var o := c.Call(ListDay1);
      if o != Served {
        cti.SetCondition(ClusterInstallSucceeded, False, ApplicationFetchFailed, c.env.now);
        return Some(Generic);
      }
      if |c.env.day1| == 0 {
        return Some(AppNotFound);
      }
      var application := c.env.day1[0];
      var health := GetApplicationHealth(application, false);
      if health == AppSyncRunning {
        NotInstalledYet(cti, ClusterInstalling, ClusterInstallingPhase);
        return None;
      }
      if health == AppDegraded {
        NotInstalledYet(cti, ApplicationDegraded, ClusterInstallFailedPhase);
        return None;
      }
      if health == AppError {
        NotInstalledYet(cti, ApplicationError, ClusterInstallFailedPhase);
        return None;
      }
      cti.phase := ClusterInstallingPhase;
      if c.cfg.experimental {
        return None;
      }
      err := ReconcileClusterProvider(cti, application);
    }

    // The branch of reconcile for an instance that brings its own kubeconfig.
    method ReconcileSecretRef(cti: ClusterTemplateInstance) returns (err: Option<Fault>)
      requires cti.Valid()
      modifies c, cti, cti.conditions
      ensures cti.Valid()
      ensures R(View(cti), err) == Lifecycle.ReconcileSecretRef(c.cfg, c.env, old(View(cti)))
    {
      hide Shows, Write, Lifecycle.CreateClusterSecrets, Handled;
      var o := c.Call(GetSecretRef);
      if o != Served || c.env.secretRefData.None? {
        return Some(Generic);
      }
      var d := c.env.secretRefData.value;
      var ok := Providers.CreateClusterSecrets(c, d.0, d.1);
      if !ok {
        return Some(Generic);
      }
      cti.SetCondition(ClusterInstallSucceeded, True, ClusterInstalled, c.env.now);
      err := None;
    }

    // -------- registration --------

    method ReconcileCreateManagedCluster(cti: ClusterTemplateInstance) returns (err: Option<Fault>)
      requires cti.Valid()
      modifies c, cti, cti.conditions
      ensures cti.Valid()
      ensures R(View(cti), err) == Lifecycle.ReconcileCreateManagedCluster(c.cfg, c.env, old(View(cti)))
    {
      hide Shows, Write, Lifecycle.CreateManagedCluster, Handled, FirstCluster, CanExecute;
      var can := cti.PhaseCanExecute(ClusterInstallSucceeded, Some(ManagedClusterCreated));
      if !can {
        return None;
      }
      if c.cfg.skipRegistration || !c.cfg.enableManagedCluster {
        cti.SetCondition(ManagedClusterCreated, True, MCSkipped, c.env.now);
        return None;
      }
      var ok := ManagedClusters.CreateManagedCluster(c);
      if !ok {
        cti.SetCondition(ManagedClusterCreated, False, MCFailed, c.env.now);
        return Some(Generic);
      }
      var o, mc := ManagedClusters.GetManagedCluster(c, ListAfterCreate);
      if o != Served {
        return Some(Generic);
      }
      if mc.None? {
        return Some(Crash);
      }
      cti.managedCluster := mc.value.name;
      cti.SetCondition(ManagedClusterCreated, True, MCCreated, c.env.now);
      err := None;
    }

    method ReconcileImportManagedCluster(cti: ClusterTemplateInstance) returns (err: Option<Fault>)
      requires cti.Valid()
      modifies c, cti, cti.conditions
      ensures cti.Valid()
      ensures R(View(cti), err) == Lifecycle.ReconcileImportManagedCluster(c.cfg, c.env, old(View(cti)))
    {
      hide Shows, Write, EnsureImportSecret, CanExecute, LastIsTrue;
      var can := cti.PhaseCanExecute(ManagedClusterCreated, Some(ManagedClusterImported));
      if !can {
        return None;
      }
      if c.cfg.skipRegistration || !c.cfg.enableManagedCluster {
        cti.SetCondition(ManagedClusterImported, True, MCImportSkipped, c.env.now);
        return None;
      }
      var ok, imported := ManagedClusters.ImportManagedCluster(c);
      if !ok {
        cti.SetCondition(ManagedClusterImported, False, MCImportFailed, c.env.now);
        return Some(Generic);
      }
      if imported {
        cti.SetCondition(ManagedClusterImported, True, MCImported, c.env.now);
      } else {
        cti.phase := ManagedClusterImportingPhase;
        cti.SetCondition(ManagedClusterImported, False, MCImporting, c.env.now);
      }
      err := None;
    }

    method ReconcileCreateKlusterlet(cti: ClusterTemplateInstance) returns (err: Option<Fault>)
      requires cti.Valid()
      modifies c, cti, cti.conditions
      ensures cti.Valid()
      ensures R(View(cti), err) == Lifecycle.ReconcileCreateKlusterlet(c.cfg, c.env, old(View(cti)))
    {
      hide Shows, Write, EnsureKlusterlet, CanExecute;
      var can := cti.PhaseCanExecute(ManagedClusterImported, None);
      if !can {
        return None;
      }
      if !(c.cfg.enableKlusterlet && !c.cfg.skipRegistration) {
        cti.SetCondition(KlusterletAddonCreated, True, KlusterletSkipped, c.env.now);
        return None;
      }
      var ok := ManagedClusters.CreateKlusterletAddonConfig(c);
      if !ok {
        cti.SetCondition(KlusterletAddonCreated, False, KlusterletFailed, c.env.now);
        return Some(Generic);
      }
      cti.SetCondition(KlusterletAddonCreated, True, KlusterletCreated, c.env.now);
      err := None;
    }

    // Every claim of the name is taken over in turn, so the last one stays.
    method ReconcileConsoleURL(cti: ClusterTemplateInstance) returns (err: Option<Fault>)
      requires cti.Valid()
      modifies c, cti, cti.conditions
      ensures cti.Valid()
      ensures R(View(cti), err) == Lifecycle.ReconcileConsoleURL(c.cfg, c.env, old(View(cti)))
    {
      hide Shows, Write, CanExecute, FirstCluster, Handled, OnlyChanges;
      var can := cti.PhaseCanExecute(ManagedClusterImported, None);
      if !can {
        return None;
      }
      if c.cfg.skipRegistration || !c.cfg.enableManagedCluster {
        cti.SetCondition(ConsoleURLRetrieved, True, ConsoleURLSkipped, c.env.now);
        return None;
      }
      var o, mc := ManagedClusters.GetManagedCluster(c, ListForConsole);
      if o != Served {
        cti.SetCondition(ConsoleURLRetrieved, False, ConsoleURLFailed, c.env.now);
        return Some(Generic);
      }
      if mc.None? {
        return Some(Generic);
      }
      ghost var st := View(cti);
      var claims := c.env.consoleClaims;
      for i := 0 to |claims|
        invariant cti.Valid() && c.hub == st.hub
        invariant View(cti) == WithClaims(st, claims[..i], c.env.now)
      {
        assert claims[..i + 1][i] == claims[i];
        ClaimedAgain(st.status.conditions, c.env.now);
        cti.consoleURL := claims[i];
        cti.SetCondition(ConsoleURLRetrieved, True, ConsoleURLSucceeded, c.env.now);
      }
      assert claims[..|claims|] == claims;
      err := None;
    }

    // -------- argo cluster --------

    /** clustersetup.AddClusterToArgo. */
    method AddClusterToArgo(cti: ClusterTemplateInstance) returns (err: Option<Fault>)
      requires cti.Valid()
      modifies c, cti
      ensures cti.Valid() && cti.board == old(cti.board)
      ensures R(View(cti), err) == Lifecycle.AddClusterToArgo(c.cfg, c.env, old(View(cti)))
    {
      hide Shows, Handled, FirstCluster, EnsureArgoSecret;
      var o, kubeconfig := c.GetKubeconfig(GetKubeconfigForArgo);
      if kubeconfig.None? {
        return Some(Generic);
      }
      if cti.firstLogin.None? {
        cti.firstLogin := Some(c.env.now);
      }
      if !c.env.login {
        if c.env.loginNow < cti.firstLogin.value + c.cfg.loginTimeout {
          return Some(LoginPending);
        }
        return Some(Generic);
      }
      o := c.Call(PrepareNewCluster);
      if o != Served {
        return Some(Generic);
      }
      var ok := FinishAddingCluster();
      err := if ok then None else Some(Generic);
    }

    // The last part of it: find the names and ensure the cluster secret.
    method FinishAddingCluster() returns (ok: bool)
      modifies c
      ensures (c.hub, ok) == FinishArgo(c.cfg, c.env, old(c.hub))
    {
      hide Handled, FirstCluster, EnsureArgoSecret;
      var appName;
      if c.cfg.secretRef.Some? {
        appName := c.cfg.secretRef.value;
      } else {
        var o := c.Call(ListDay1ForArgo);
        if o != Served || |c.env.day1| == 0 {
          return false;
        }
        appName := c.env.day1[0].name;
      }
      if c.cfg.enableManagedCluster && !c.cfg.skipRegistration {
        var o, mc := ManagedClusters.GetManagedCluster(c, ListForArgo);
        if o != Served || mc.None? {
          return false;
        }
      }
      ok := c.EnsureArgoSecretExists(appName);
    }

    method ReconcileAddClusterToArgo(cti: ClusterTemplateInstance) returns (err: Option<Fault>)
      requires cti.Valid()
      modifies c, cti, cti.conditions
      ensures cti.Valid()
      ensures R(View(cti), err) == Lifecycle.ReconcileAddClusterToArgo(c.cfg, c.env, old(View(cti)))
    {
      hide Shows, Write, CanExecute, Lifecycle.AddClusterToArgo;
      var can := cti.PhaseCanExecute(ManagedClusterImported, Some(ArgoClusterAdded));
      if !can {
        return None;
      }
      err := AddClusterToArgo(cti);
      if err == Some(LoginPending) {
        cti.SetCondition(ArgoClusterAdded, False, ArgoClusterLoginPending, c.env.now);
        return err;
      }
      if err.Some? {
        cti.SetCondition(ArgoClusterAdded, False, ArgoClusterFailed, c.env.now);
        return err;
      }
      cti.SetCondition(ArgoClusterAdded, True, ArgoClusterCreated, c.env.now);
    }

    // -------- cluster setup --------

    method ReconcileClusterSetupCreate(cti: ClusterTemplateInstance) returns (err: Option<Fault>)
      requires cti.Valid()
      modifies c, cti, cti.conditions
      ensures cti.Valid()
      ensures R(View(cti), err) == Lifecycle.ReconcileClusterSetupCreate(c.cfg, c.env, old(View(cti)))
    {
      hide Shows, Write, CanExecute, CreateDay2;
      var can := cti.PhaseCanExecute(ArgoClusterAdded, Some(ClusterSetupCreated));
      if !can {
        return None;
      }
      if |c.cfg.setups| == 0 {
        cti.SetCondition(ClusterSetupCreated, True, ClusterSetupNotSpecified, c.env.now);
        return None;
      }
      var ok := ApplicationSets.CreateDay2Applications(c);
      if !ok {
        cti.SetCondition(ClusterSetupCreated, False, ClusterSetupCreationFailed, c.env.now);
        return Some(Generic);
      }
      cti.SetCondition(ClusterSetupCreated, True, SetupCreated, c.env.now);
      err := None;
    }

    // The loop over the setup applications.
    method Survey(apps: seq<Application>)
      returns (statuses: seq<SetupStatus>, allSynced: bool, errorSetups: seq<string>, degradedSetups: seq<string>)
      ensures statuses == SetupStatuses(apps)
      ensures allSynced <==> AllHealthy(apps)
      ensures errorSetups != [] <==> SomeAre(apps, AppError)
      ensures degradedSetups != [] <==> SomeAre(apps, AppDegraded)
    {
      hide Classify;
      statuses, allSynced, errorSetups, degradedSetups := [], true, [], [];
      for i := 0 to |apps|
        invariant statuses + SetupStatuses(apps[i..]) == SetupStatuses(apps)
        invariant allSynced <==> forall j | 0 <= j < i :: Classify(apps[j], true) == AppHealthy
        invariant errorSetups != [] <==> exists j | 0 <= j < i :: Classify(apps[j], true) == AppError
        invariant degradedSetups != [] <==> exists j | 0 <= j < i :: Classify(apps[j], true) == AppDegraded
      {
        var app := apps[i];
        assert apps[i..][0] == app && apps[i..][1..] == apps[i + 1..];
        var status := GetApplicationHealth(app, true);
        statuses := statuses + [SetupStatus(app.setup, status)];
        if status != AppHealthy {
          allSynced := false;
        }
        if status == AppError {
          errorSetups := errorSetups + [app.setup];
        }
        if status == AppDegraded {
          degradedSetups := degradedSetups + [app.setup];
        }
      }
    }

    method ReconcileClusterSetup(cti: ClusterTemplateInstance) returns (err: Option<Fault>)
      requires cti.Valid()
      modifies c, cti, cti.conditions
      ensures cti.Valid()
      ensures R(View(cti), err) == Lifecycle.ReconcileClusterSetup(c.cfg, c.env, old(View(cti)))
    {
      hide Shows, Write, CanExecute, Handled, SetupStatuses, AllHealthy, SomeAre, OnlyChanges;
      var can := cti.PhaseCanExecute(ClusterSetupCreated, Some(ClusterSetupSucceeded));
      if !can {
        return None;
      }
      if |c.cfg.setups| == 0 {
        cti.SetCondition(ClusterSetupSucceeded, True, ClusterSetupNotDefined, c.env.now);
        return None;
      }
      var o := c.Call(ListSetupApps);
      if o != Served {
        cti.SetCondition(ClusterSetupSucceeded, False, ClusterSetupFetchFailed, c.env.now);
        return Some(Generic);
      }
      if |c.env.day2| == 0 {
        cti.SetCondition(ClusterSetupSucceeded, False, ClusterSetupAppsNotFound, c.env.now);
        return Some(Generic);
      }
      cti.phase := ClusterSetupRunningPhase;
      var statuses, allSynced, errorSetups, degradedSetups := Survey(c.env.day2);
      cti.clusterSetup := statuses;
      if allSynced {
        cti.SetCondition(ClusterSetupSucceeded, True, SetupSucceeded, c.env.now);
      } else if |errorSetups| > 0 {
        cti.SetCondition(ClusterSetupSucceeded, False, ClusterSetupError, c.env.now);
        cti.phase := ClusterSetupFailedPhase;
      } else if |degradedSetups| > 0 {
        cti.SetCondition(ClusterSetupSucceeded, False, ClusterSetupDegraded, c.env.now);
        cti.phase := ClusterSetupDegradedPhase;
      } else {
        cti.SetCondition(ClusterSetupSucceeded, False, ClusterSetupRunning, c.env.now);
        cti.phase := ClusterSetupRunningPhase;
      }
      err := None;
    }

    // -------- credentials --------

    // The loop that publishes the setup secrets not yet listed.
    method PublishSetupSecrets(cti: ClusterTemplateInstance, found: seq<string>)
      modifies cti`setupSecrets
      ensures cti.setupSecrets == AddSecrets(old(cti.setupSecrets), found)
    {
      for i := 0 to |found|
        invariant AddSecrets(cti.setupSecrets, found[i..]) == AddSecrets(old(cti.setupSecrets), found)
      {
        assert found[i..][0] == found[i] && found[i..][1..] == found[i + 1..];
        if found[i] !in cti.setupSecrets {
          cti.setupSecrets := cti.setupSecrets + [found[i]];
        }
      }
    }

    method ReconcileClusterCredentials(cti: ClusterTemplateInstance) returns (err: Option<Fault>)
      requires cti.Valid()
      modifies c, cti
      ensures cti.Valid()
      ensures R(View(cti), err) == Lifecycle.ReconcileClusterCredentials(c.cfg, c.env, old(View(cti)))
    {
      hide Shows, Handled, AddSecrets;
      var succeeded := cti.StatusOfCondition(ClusterSetupSucceeded);
      if succeeded == False {
        return None;
      }
      if cti.apiServerURL == "" {
        var o, url := c.GetKubeconfig(GetKubeconfigForCredentials);
        if url.None? {
          return Some(Generic);
        }
        cti.apiServerURL := url.value;
      }
      cti.credentialRefs := true;
      var o := c.Call(ListSetupSecrets);
      if o != Served {
        return Some(Generic);
      }
      PublishSetupSecrets(cti, c.env.setupSecrets);
      o := c.Call(ReconcileRoles);
      if o != Served {
        return Some(Generic);
      }
      cti.phase := ReadyPhase;
      err := None;
    }

    // -------- the pass --------

    // One block of reconcile: a step, and the phase its failure is recorded with.
    method RunStep(cti: ClusterTemplateInstance, k: nat) returns (err: Option<Fault>)
      requires cti.Valid() && k < STAGE_COUNT
      modifies c, cti, cti.conditions
      ensures cti.Valid()
      ensures R(View(cti), err) == Stage(c.cfg, c.env, old(View(cti)), k)
    {
      hide Shows, Lifecycle.ReconcileClusterCreate, Lifecycle.ReconcileClusterStatus, Lifecycle.ReconcileSecretRef,
        Lifecycle.ReconcileCreateManagedCluster, Lifecycle.ReconcileImportManagedCluster,
        Lifecycle.ReconcileCreateKlusterlet, Lifecycle.ReconcileConsoleURL, Lifecycle.ReconcileAddClusterToArgo,
        Lifecycle.ReconcileClusterSetupCreate, Lifecycle.ReconcileClusterSetup, Lifecycle.ReconcileClusterCredentials;
      var failed;
      match k {
        case 0 =>
          if c.cfg.secretRef.Some? {
            err := ReconcileSecretRef(cti);
            return err;
          }
          err := ReconcileClusterCreate(cti);
          failed := ClusterDefinitionFailedPhase;
        case 1 =>
          if c.cfg.secretRef.Some? {
            return None;
          }
          err := ReconcileClusterStatus(cti);
          if err == Some(AppNotFound) {
            return err;
          }
          failed := ClusterInstallFailedPhase;
        case 2 =>
          err := ReconcileCreateManagedCluster(cti);
          failed := ManagedClusterFailedPhase;
        case 3 =>
          err := ReconcileImportManagedCluster(cti);
          failed := ManagedClusterImportFailedPhase;
        case 4 =>
          err := ReconcileCreateKlusterlet(cti);
          failed := KlusterletCreateFailedPhase;
        case 5 =>
          err := ReconcileConsoleURL(cti);
          return err;
        case 6 =>
          err := ReconcileAddClusterToArgo(cti);
          failed := if err == Some(LoginPending) then ClusterLoginPendingPhase else ArgoClusterFailedPhase;
        case 7 =>
          err := ReconcileClusterSetupCreate(cti);
          failed := ClusterSetupCreateFailedPhase;
        case 8 =>
          err := ReconcileClusterSetup(cti);
          failed := ClusterSetupFailedPhase;
        case _ =>
          err := ReconcileClusterCredentials(cti);
          failed := CredentialsFailedPhase;
      }
      if err.Some? {
        cti.phase := failed;
      }
    }

    /** reconcile: the blocks in their order, up to the first failure. */
    method RunSteps(cti: ClusterTemplateInstance) returns (err: Option<Fault>)
      requires cti.Valid()
      modifies c, cti, cti.conditions
      ensures cti.Valid()
      ensures R(View(cti), err) == Stages(c.cfg, c.env, old(View(cti)), 0)
    {
      hide Shows, Stage, Stages;
      NextStage(c.cfg, c.env, View(cti), 0);
      err := RunStep(cti, 0);
      if err.Some? {
        return err;
      }
      NextStage(c.cfg, c.env, View(cti), 1);
      err := RunStep(cti, 1);
      if err.Some? {
        return err;
      }
      NextStage(c.cfg, c.env, View(cti), 2);
      err := RunStep(cti, 2);
      if err.Some? {
        return err;
      }
      NextStage(c.cfg, c.env, View(cti), 3);
      err := RunStep(cti, 3);
      if err.Some? {
        return err;
      }
      NextStage(c.cfg, c.env, View(cti), 4);
      err := RunStep(cti, 4);
      if err.Some? {
        return err;
      }
      NextStage(c.cfg, c.env, View(cti), 5);
      err := RunStep(cti, 5);
      if err.Some? {
        return err;
      }
      NextStage(c.cfg, c.env, View(cti), 6);
      err := RunStep(cti, 6);
      if err.Some? {
        return err;
      }
      NextStage(c.cfg, c.env, View(cti), 7);
      err := RunStep(cti, 7);
      if err.Some? {
        return err;
      }
      NextStage(c.cfg, c.env, View(cti), 8);
      err := RunStep(cti, 8);
      if err.Some? {
        return err;
      }
      NextStage(c.cfg, c.env, View(cti), 9);
      err := RunStep(cti, 9);
      if err.Some? {
        return err;
      }
      AllStages(c.cfg, c.env, View(cti));
    }

    /** Reconcile for an instance that is not being deleted, up to the status write. */
    method Reconcile(cti: ClusterTemplateInstance, ghost stored: Stored) returns (err: Option<Fault>)
      requires cti.Loaded(stored)
      modifies c, cti, cti.conditions
      ensures cti.Valid()
      ensures R(View(cti), err) == Pass(c.cfg, c.env, stored, old(c.hub))
    {
      hide Shows, Stages, Handled, Begin;
      cti.BeginPass(c.env.now, stored);
      var o := c.Call(GetTemplate);
      if o != Served || !c.env.templateFound {
        cti.phase := FailedPhase;
        return Some(Generic);
      }
      err := RunSteps(cti);
    }

    // -------- deletion --------

    // The loop over the argo secrets of the instance.
    method DeleteArgoSecrets() returns (ok: bool)
      modifies c
      ensures (c.hub, ok) == LeaveArgo(c.cfg, c.env, old(c.hub))
    {
      hide Handled, MySecrets, WithoutSecret, SecretNamed;
      var o, secrets := c.ListOwnArgoSecrets(ListArgoSecrets);
      if o != Served {
        return false;
      }
      ghost var w := c.hub;
      var i := 0;
      while i < |secrets|
        invariant 0 <= i <= |secrets|
        invariant DeleteSecrets(c.cfg, c.env, w, secrets, 0) == DeleteSecrets(c.cfg, c.env, c.hub, secrets, i)
      {
        ok := c.DeleteSecret(DeleteArgoSecret(i), secrets[i].name);
        if !ok {
          return false;
        }
        i := i + 1;
      }
      ok := true;
    }

    method DeleteManagedCluster() returns (ok: bool)
      modifies c
      ensures (c.hub, ok) == LeaveCluster(c.cfg, c.env, old(c.hub))
    {
      hide Handled, FirstCluster, NameTaken, WithoutCluster;
      var o, mc := ManagedClusters.GetManagedCluster(c, ListForDelete);
      if o != Served {
        return false;
      }
      if mc.None? {
        return true;
      }
      var name := mc.value.name;
      if c.cfg.enableKlusterlet {
        o := c.DeleteKlusterletConfig(DeleteKlusterlet, name);
        if o != Served {
          return false;
        }
      }
      o := c.DeleteImportSecret(Site.DeleteImportSecret, name);
      if o != Served {
        return false;
      }
      ok := c.DeleteCluster(Site.DeleteCluster, name);
    }

    /** delete: whether the finalizer is gone afterwards. */
    method Delete() returns (released: bool)
      modifies c
      ensures (c.hub, released) == DeletePass(c.cfg, c.env, old(c.hub))
    {
      hide Handled, LeaveDay1, LeaveDay2, LeaveArgo, LeaveCluster;
      if |c.env.finalizers| != 1 || CTI_FINALIZER !in c.env.finalizers {
        return false;
      }
      assert c.env.finalizers == [CTI_FINALIZER];
      var o := c.Call(GetTemplate);
      if o != Served {
        return false;
      }
      var ok := true;
      if c.env.templateFound {
        if c.cfg.secretRef.None? {
          ok := ApplicationSets.DeleteDay1Application(c);
          if !ok {
            return false;
          }
        }
        ok := ApplicationSets.DeleteDay2Application(c);
        if !ok {
          return false;
        }
      }
      ok := DeleteArgoSecrets();
      if !ok {
        return false;
      }
      if c.cfg.enableManagedCluster {
        ok := DeleteManagedCluster();
        if !ok {
          return false;
        }
      }
      o := c.Call(RemoveFinalizer);
      released := o != Refused;
    }
  }

  lemma NextStage(cfg: Config, env: Env, st: St, k: nat)
    requires k < STAGE_COUNT
    ensures var r := Stage(cfg, env, st, k);
      Stages(cfg, env, st, k) == if r.err.Some? then r else Stages(cfg, env, r.st, k + 1)
  {
    hide Stage;
  }

  lemma AllStages(cfg: Config, env: Env, st: St)
    ensures Stages(cfg, env, st, STAGE_COUNT) == R(st, None)
  {}

  // The status after taking over some console claims.
  ghost function WithClaims(st: St, claims: seq<string>, now: int): St {
    if claims == [] then st
    else
      SetC(st.(status := st.status.(consoleURL := claims[|claims| - 1])), ConsoleURLRetrieved, True,
        ConsoleURLSucceeded, now)
  }

  lemma ClaimedAgain(b: Board, now: int)
    ensures var w := Write(b, ConsoleURLRetrieved, True, ConsoleURLSucceeded, now);
      Write(w, ConsoleURLRetrieved, True, ConsoleURLSucceeded, now) == w
  {}
}
