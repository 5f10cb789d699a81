/** What favourable passes may still change once one of them has ended in Ready.

    However much of what they read differs from the time before, all but the console URL,
    a missing password and further setup secrets stays as it was. */
module Steadiness {
  import opened Conditions
  import opened Applications
  import opened Hub
  import opened Lifecycle
  import opened Passes
  import opened HubInvariants
  import opened Convergence

  // Everything is done that does not depend on what a pass reads.
  ghost predicate Steady(cfg: Config, st: St) {
    && TwoValued(st)
    && DefinitionSettled(cfg, st)
    && On(st, ClusterInstallSucceeded) && cfg.Me() in st.hub.kubeconfigs
    && (cfg.secretRef.Some? || !cfg.experimental ==>
        Get(st.status.conditions, ClusterInstallSucceeded).reason == ClusterInstalled)
    && ClusterSettled(cfg, st) && On(st, ManagedClusterImported) && KlusterletSettled(cfg, st)
    && (!cfg.Registers() ==>
          && On(st, ConsoleURLRetrieved)
          && Get(st.status.conditions, ConsoleURLRetrieved).reason == ConsoleURLSkipped)
    && On(st, ArgoClusterAdded) && On(st, ClusterSetupCreated) && On(st, ClusterSetupSucceeded)
    && st.status.credentialRefs && (st.status.apiServerURL == "" ==> st.hub.kubeconfigs[cfg.Me()] == "")
  }

  // The console condition may turn on, and its time moves only then.
  predicate ConsoleOn(a: Mark, b: Mark) {
    if b.status == a.status then b.transition == a.transition else b.status == True
  }

  // All that may change: the password secret may be added, if there is none, the console
  // URL read anew, and setup secrets added.
  ghost predicate Drift(cfg: Config, a: St, b: St) {
    && b.hub == a.hub.(passwords := b.hub.passwords)
    && (forall x | x in a.hub.passwords :: x in b.hub.passwords && b.hub.passwords[x] == a.hub.passwords[x])
    && b.hub.passwords.Keys <= a.hub.passwords.Keys + {cfg.Me()}
    && b.status.conditions == Put(a.status.conditions, ConsoleURLRetrieved,
        Get(b.status.conditions, ConsoleURLRetrieved))
    && ConsoleOn(Get(a.status.conditions, ConsoleURLRetrieved), Get(b.status.conditions, ConsoleURLRetrieved))
    && (!cfg.Registers() ==> b.status.conditions == a.status.conditions)
    && b.status == a.status.(conditions := b.status.conditions, consoleURL := b.status.consoleURL,
                             setupSecrets := b.status.setupSecrets, phase := b.status.phase)
    && (forall x | x in a.status.setupSecrets :: x in b.status.setupSecrets)
  }

  lemma DriftOn(cfg: Config, a: St, b: St, c: St)
    requires Drift(cfg, a, b) && Drift(cfg, b, c)
    ensures Drift(cfg, a, c)
  {}

  lemma SameMarks(a: Board, m: Mark, t: ConditionType)
    requires t != ConsoleURLRetrieved
    ensures Get(Put(a, ConsoleURLRetrieved, m), t) == Get(a, t)
  {}

  lemma DriftKeepsMarks(cfg: Config, a: St, b: St)
    requires Drift(cfg, a, b)
    ensures forall t | t != ConsoleURLRetrieved :: Get(b.status.conditions, t) == Get(a.status.conditions, t)
  {
    forall t | t != ConsoleURLRetrieved ensures Get(b.status.conditions, t) == Get(a.status.conditions, t) {
      SameMarks(a.status.conditions, Get(b.status.conditions, ConsoleURLRetrieved), t);
    }
  }

  lemma DriftKeepsTwoValued(cfg: Config, a: St, b: St)
    requires TwoValued(a) && Drift(cfg, a, b) && Get(b.status.conditions, ConsoleURLRetrieved).status != Unknown
    ensures TwoValued(b)
  {
    DriftKeepsMarks(cfg, a, b);
    hide Get, Put, Drift;
    forall t ensures Get(b.status.conditions, t).status != Unknown {
      assert Get(a.status.conditions, t).status != Unknown;
    }
  }

  lemma DriftKeepsSteady(cfg: Config, a: St, b: St)
    requires Steady(cfg, a) && Drift(cfg, a, b) && Get(b.status.conditions, ConsoleURLRetrieved).status != Unknown
    ensures Steady(cfg, b)
  {
    DriftKeepsMarks(cfg, a, b);
    DriftKeepsTwoValued(cfg, a, b);
    hide Get, Put, FirstCluster, TwoValued;
  }

  lemma DriftKeepsFavourable(cfg: Config, env: Env, a: St, b: St)
    requires Favourable(cfg, env, a) && Drift(cfg, a, b)
    ensures Favourable(cfg, env, b)
  {
    DriftKeepsMarks(cfg, a, b);
    hide Get, Put, FirstCluster, Matches, ClusterLabels, NameTaken, LastIsTrue, AllHealthy, ProviderReady, Detect,
      Classify;
  }

  // -------- one step --------

  lemma RestsDrifts(cfg: Config, st: St, r: R)
    requires Rests(st, r)
    ensures Drift(cfg, st, r.st)
  {
    PutSame(st.status.conditions);
    hide Put, Get;
  }

  lemma PutSame(b: Board)
    ensures Put(b, ConsoleURLRetrieved, Get(b, ConsoleURLRetrieved)) == b
  {}

  // Credentials that are found again, or a password that is found at last.
  lemma CredentialsDrift(cfg: Config, st: St, url: string, password: string, p: Phase)
    requires cfg.Me() in st.hub.kubeconfigs
    ensures Drift(cfg, st, SetPhase(st.(hub := WithCredentials(cfg.Me(), st.hub, url, password)), p))
  {
    PutSame(st.status.conditions);
    hide Put, Get;
  }

  lemma InstalledAgain(st: St, now: int)
    requires On(st, ClusterInstallSucceeded)
        && Get(st.status.conditions, ClusterInstallSucceeded).reason == ClusterInstalled
    ensures SetC(st, ClusterInstallSucceeded, True, ClusterInstalled, now) == st
  {
    WriteSame(st.status.conditions, ClusterInstallSucceeded, now);
  }

  lemma SecretRefDrifts(cfg: Config, env: Env, st: St)
    requires Steady(cfg, st) && Calm(env) && cfg.secretRef.Some? && env.secretRefData.Some?
    ensures var r := ReconcileSecretRef(cfg, env, st); r.err == None && Drift(cfg, st, r.st)
  {
    var d := env.secretRefData.value;
    CalmSecrets(cfg, env, st.hub, d.0, d.1);
    var st1 := st.(hub := WithCredentials(cfg.Me(), st.hub, d.0, d.1));
    CredentialsDrift(cfg, st, d.0, d.1, st.status.phase);
    InstalledAgain(st1, env.now);
    hide CreateClusterSecrets, WithCredentials, SetC, Drift;
    assert SetPhase(st1, st.status.phase) == st1;
  }

  // What a provider that is ready comes to.
  lemma ReadyProvider(cfg: Config, env: Env, st: St, v: Provider)
    requires Calm(env) && env.day1 != [] && Detect(env.day1[0].resources, env.day1[0].resources) == Some(v)
    requires ProviderReady(env.provider, v)
    ensures env.provider.kubeconfig.Some?
    ensures ReconcileProvider(cfg, env, st, env.day1[0]) ==
      R(SetC(st.(hub := WithCredentials(cfg.Me(), st.hub, env.provider.kubeconfig.value,
        ProviderPassword(env.provider, v))),
             ClusterInstallSucceeded, True, ClusterInstalled, env.now), None)
  {
    hide GetClusterStatus, WithCredentials, SetC, ProviderReady, ProviderPassword, Detect, OnlyChanges, Calm;
    CalmProvider(cfg, env, v, st.hub);
  }

  lemma ProviderDrifts(cfg: Config, env: Env, st: St, p: Phase)
    requires Steady(cfg, st) && Calm(env) && Day1Ready(cfg, env, st) && cfg.secretRef.None? && !cfg.experimental
    ensures var r := ReconcileProvider(cfg, env, SetPhase(st, p), env.day1[0]); r.err == None && Drift(cfg, st, r.st)
  {
    assert On(st, ClusterInstallSucceeded)
      && Get(st.status.conditions, ClusterInstallSucceeded).reason == ClusterInstalled;
    assert cfg.Me() in st.hub.kubeconfigs;
    var v := Detect(env.day1[0].resources, env.day1[0].resources).value;
    assert Detect(env.day1[0].resources, env.day1[0].resources) == Some(v) && ProviderReady(env.provider, v);
    hide Steady, ReconcileProvider, WithCredentials, SetC, Drift, ProviderReady, ProviderPassword, Detect, Get, Calm,
      Day1Ready;
    ReadyProvider(cfg, env, SetPhase(st, p), v);
    var url, password := env.provider.kubeconfig.value, ProviderPassword(env.provider, v);
    CredentialsDrift(cfg, st, url, password, p);
    InstalledAgain(SetPhase(st.(hub := WithCredentials(cfg.Me(), st.hub, url, password)), p), env.now);
  }

  // What the install step does with a healthy application.
  lemma HealthyInstall(cfg: Config, env: Env, st: St)
    requires Calm(env) && Day1Ready(cfg, env, st) && !Is(st, ClusterDefinitionCreated, False)
    ensures var st2 := SetPhase(st, ClusterInstallingPhase);
      ReconcileClusterStatus(cfg, env, st) ==
        if cfg.experimental then R(st2, None) else ReconcileProvider(cfg, env, st2, env.day1[0])
  {
    hide ReconcileProvider, ProviderReady, Detect, Classify, OnlyChanges, SetC, NotInstalled;
    assert Handled(cfg, env, st.hub, ListDay1) == st.hub;
  }

  lemma InstallDrifts(cfg: Config, env: Env, st: St)
    requires Steady(cfg, st) && Calm(env) && Day1Ready(cfg, env, st) && cfg.secretRef.None?
    ensures var r := ReconcileClusterStatus(cfg, env, st); r.err == None && Drift(cfg, st, r.st)
  {
    assert !Is(st, ClusterDefinitionCreated, False);
    hide Steady, Calm, Day1Ready, ReconcileProvider, ReconcileClusterStatus, Drift;
    HealthyInstall(cfg, env, st);
    if cfg.experimental {
      RestsDrifts(cfg, st, R(SetPhase(st, ClusterInstallingPhase), None));
    } else {
      ProviderDrifts(cfg, env, st, ClusterInstallingPhase);
    }
  }

  lemma SteadyDefinition(cfg: Config, st: St)
    requires Steady(cfg, st) && cfg.secretRef.None?
    ensures !Is(st, ClusterDefinitionCreated, False)
  {}

  lemma FirstStageDrifts(cfg: Config, env: Env, st: St)
    requires Steady(cfg, st) && Favourable(cfg, env, st)
    ensures var r := Stage(cfg, env, st, 0); r.err == None && Drift(cfg, st, r.st)
  {
    hide ReconcileSecretRef, Drift, Steady, RegistrationReady, SetupReady, Day1Ready, CreateDay1, OnlyChanges;
    if cfg.secretRef.None? {
      SteadyDefinition(cfg, st);
    }
    if cfg.secretRef.Some? {
      SecretRefDrifts(cfg, env, st);
    } else {
      RestsDrifts(cfg, st, R(st, None));
    }
  }

  lemma SecondStageDrifts(cfg: Config, env: Env, st: St)
    requires Steady(cfg, st) && Favourable(cfg, env, st)
    ensures var r := Stage(cfg, env, st, 1); r.err == None && Drift(cfg, st, r.st)
  {
    hide ReconcileClusterStatus, Drift, Steady, RegistrationReady, SetupReady, Day1Ready;
    if cfg.secretRef.Some? {
      RestsDrifts(cfg, st, R(st, None));
    } else {
      InstallDrifts(cfg, env, st);
    }
  }

  lemma ConsoleWritten(b: Board, m: Mark)
    requires ConsoleOn(Get(b, ConsoleURLRetrieved), m)
    ensures Put(b, ConsoleURLRetrieved, Get(Put(b, ConsoleURLRetrieved, m), ConsoleURLRetrieved)) ==
        Put(b, ConsoleURLRetrieved, m)
    ensures Get(Put(b, ConsoleURLRetrieved, m), ConsoleURLRetrieved) == m
  {}

  // The console step, spelled out for a calm pass.
  lemma CalmConsole(cfg: Config, env: Env, st: St)
    requires Steady(cfg, st) && Calm(env)
    ensures ReconcileConsoleURL(cfg, env, st) ==
      if !cfg.Registers() || env.consoleClaims == [] then R(st, None)
      else R(SetC(st.(status := st.status.(consoleURL := env.consoleClaims[|env.consoleClaims| - 1])),
                  ConsoleURLRetrieved, True, ConsoleURLSucceeded, env.now), None)
  {
    hide FirstCluster, KlusterletSettled, TwoValued, Put, OnlyChanges;
    if !cfg.Registers() {
      WriteSame(st.status.conditions, ConsoleURLRetrieved, env.now);
    }
  }

  lemma ConsoleDrifts(cfg: Config, env: Env, st: St)
    requires Steady(cfg, st) && Calm(env)
    ensures var r := ReconcileConsoleURL(cfg, env, st); r.err == None && Drift(cfg, st, r.st)
  {
    hide Steady, Put, Get, ReconcileConsoleURL;
    CalmConsole(cfg, env, st);
    RestsDrifts(cfg, st, R(st, None));
    var m := Get(st.status.conditions, ConsoleURLRetrieved);
    ConsoleWritten(st.status.conditions,
      Mark(True, ConsoleURLSucceeded, if m.status == True then m.transition else env.now));
  }

  lemma CredentialsStageDrifts(cfg: Config, env: Env, st: St)
    requires Steady(cfg, st) && Calm(env)
    ensures var r := ReconcileClusterCredentials(cfg, env, st);
      r.err == None && Drift(cfg, st, r.st) && r.st.status.phase == ReadyPhase
  {
    AddSecretsAdds(st.status.setupSecrets, env.setupSecrets);
    PutSame(st.status.conditions);
    hide AddSecrets, FirstCluster, KlusterletSettled, ClusterSettled, Put;
  }

  lemma FavourableIsCalm(cfg: Config, env: Env, st: St)
    requires Favourable(cfg, env, st)
    ensures Calm(env) && PassStart(cfg, env, Saved(st.status), st.hub) == st && Ok(env, GetTemplate)
        && env.templateFound
  {
    hide Day1Ready, RegistrationReady, SetupReady;
  }

  lemma LaterStagesRest(cfg: Config, env: Env, st: St, k: nat)
    requires Steady(cfg, st) && Calm(env) && (k == 2 || k == 3 || k == 4 || 6 <= k <= 8)
    ensures Rests(st, Stage(cfg, env, st, k))
  {
    hide Stage, TwoValued, FirstCluster, ReconcileCreateKlusterlet;
    if k == 4 {
      KlusterletRests(cfg, env, st);
      KlusterletStage(cfg, env, st);
    } else {
      GatesClosed(cfg, env, st, k);
    }
  }

  lemma KlusterletStage(cfg: Config, env: Env, st: St)
    ensures ReconcileCreateKlusterlet(cfg, env, st).err == None ==>
        Stage(cfg, env, st, 4) == ReconcileCreateKlusterlet(cfg, env, st)
  {
    hide ReconcileCreateKlusterlet;
  }

  lemma LastStageDrifts(cfg: Config, env: Env, st: St)
    requires Steady(cfg, st) && Calm(env)
    ensures var r := Stage(cfg, env, st, 9); r.err == None && Drift(cfg, st, r.st) && r.st.status.phase == ReadyPhase
  {
    hide ReconcileClusterCredentials, Steady, Drift;
    CredentialsStageDrifts(cfg, env, st);
  }

  lemma ConsoleStageDrifts(cfg: Config, env: Env, st: St)
    requires Steady(cfg, st) && Calm(env)
    ensures var r := Stage(cfg, env, st, 5); r.err == None && Drift(cfg, st, r.st)
  {
    hide ReconcileConsoleURL, Steady, Drift;
    ConsoleDrifts(cfg, env, st);
  }

  lemma StageDrifts(cfg: Config, env: Env, st: St, k: nat)
    requires k < STAGE_COUNT && Steady(cfg, st) && Favourable(cfg, env, st)
    ensures var r := Stage(cfg, env, st, k);
      r.err == None && Drift(cfg, st, r.st) && (k == 9 ==> r.st.status.phase == ReadyPhase)
  {
    hide Stage, Steady, Favourable, Drift;
    FavourableIsCalm(cfg, env, st);
    if k == 0 {
      FirstStageDrifts(cfg, env, st);
    } else if k == 1 {
      SecondStageDrifts(cfg, env, st);
    } else if k == 5 {
      ConsoleStageDrifts(cfg, env, st);
    } else if k == 9 {
      LastStageDrifts(cfg, env, st);
    } else {
      LaterStagesRest(cfg, env, st, k);
      RestsDrifts(cfg, st, Stage(cfg, env, st, k));
    }
  }

  // -------- one pass --------

  lemma StageKeepsSteady(cfg: Config, env: Env, st: St, k: nat)
    requires k < STAGE_COUNT && Steady(cfg, st) && Favourable(cfg, env, st)
    ensures var r := Stage(cfg, env, st, k);
      && r.err == None && Drift(cfg, st, r.st) && (k == 9 ==> r.st.status.phase == ReadyPhase)
      && Steady(cfg, r.st) && Favourable(cfg, env, r.st)
  {
    StageDrifts(cfg, env, st, k);
    assert TwoValued(st);
    hide Stage, Steady, Favourable, Drift, TwoValued;
    var r := Stage(cfg, env, st, k);
    TwoValuedOn(cfg, env, st, k);
    DriftKeepsSteady(cfg, st, r.st);
    DriftKeepsFavourable(cfg, env, st, r.st);
  }

  lemma TwoValuedOn(cfg: Config, env: Env, st: St, k: nat)
    requires k < STAGE_COUNT && TwoValued(st)
    ensures Get(Stage(cfg, env, st, k).st.status.conditions, ConsoleURLRetrieved).status != Unknown
  {
    StageSteps(cfg, env, st, k);
    hide Stage;
    if k != 9 {
      Unmoved(st, Stage(cfg, env, st, k).st, Subject(cfg, k));
    }
  }

  lemma {:induction false} StagesDrift(cfg: Config, env: Env, st: St, k: nat)
    requires k <= STAGE_COUNT && Steady(cfg, st) && Favourable(cfg, env, st)
    requires k == STAGE_COUNT ==> st.status.phase == ReadyPhase
    ensures var r := Stages(cfg, env, st, k);
      r.err == None && Drift(cfg, st, r.st) && r.st.status.phase == ReadyPhase && Steady(cfg, r.st)
    decreases STAGE_COUNT - k
  {
    hide Stage, Steady, Favourable, Drift;
    if k == STAGE_COUNT {
      RestsDrifts(cfg, st, R(st, None));
    } else {
      var r := Stage(cfg, env, st, k);
      StageKeepsSteady(cfg, env, st, k);
      StagesDrift(cfg, env, r.st, k + 1);
      DriftOn(cfg, st, r.st, Stages(cfg, env, r.st, k + 1).st);
    }
  }

  // The pass that starts from what the one before has recorded.
  function Again(cfg: Config, env: Env, st: St): R { Pass(cfg, env, Saved(st.status), st.hub) }

  lemma AgainDrifts(cfg: Config, env: Env, st: St)
    requires Steady(cfg, st) && Favourable(cfg, env, st)
    ensures var r := Again(cfg, env, st);
      r.err == None && Drift(cfg, st, r.st) && r.st.status.phase == ReadyPhase && Steady(cfg, r.st)
  {
    hide Stages, Steady, Drift, Favourable, PassStart;
    FavourableIsCalm(cfg, env, st);
    StagesDrift(cfg, env, st, 0);
  }

  lemma ArrivedPiece(cfg: Config, env: Env, r: R, k: nat)
    requires Arrived(cfg, env, r) && k < STAGE_COUNT
    ensures Piece(cfg, env, r.st, k) && TwoValued(r.st)
  {
    hide Piece, Favourable, TwoValued;
  }

  lemma ArrivedIsSteady(cfg: Config, env: Env, r: R)
    requires Arrived(cfg, env, r)
    ensures Steady(cfg, r.st)
  {
    assert TwoValued(r.st);
    hide Arrived, FirstCluster, Credentials, TwoValued;
    ArrivedPiece(cfg, env, r, 0);
    ArrivedPiece(cfg, env, r, 1);
    ArrivedPiece(cfg, env, r, 2);
    ArrivedPiece(cfg, env, r, 3);
    ArrivedPiece(cfg, env, r, 4);
    ArrivedPiece(cfg, env, r, 5);
    ArrivedPiece(cfg, env, r, 6);
    ArrivedPiece(cfg, env, r, 7);
    ArrivedPiece(cfg, env, r, 8);
    ArrivedPiece(cfg, env, r, 9);
    DefinitionIsOn(cfg, env, r);
  }

  lemma DefinitionIsOn(cfg: Config, env: Env, r: R)
    requires Arrived(cfg, env, r)
    ensures DefinitionSettled(cfg, r.st)
  {
    hide Favourable;
    ArrivedPiece(cfg, env, r, 0);
  }

  // -------- any number of passes --------

  function AgainAndAgain(cfg: Config, st: St, envs: seq<Env>): St
    decreases |envs|
  {
    if envs == [] then st else AgainAndAgain(cfg, Again(cfg, envs[0], st).st, envs[1..])
  }

  // Every pass finds what it reads favourable, each in its own way.
  ghost predicate AllFavourable(cfg: Config, st: St, envs: seq<Env>)
    decreases |envs|
  {
    envs != [] ==> Favourable(cfg, envs[0], st) && AllFavourable(cfg, Again(cfg, envs[0], st).st, envs[1..])
  }

  lemma {:induction false} DriftsOn(cfg: Config, st: St, envs: seq<Env>)
    requires Steady(cfg, st) && st.status.phase == ReadyPhase && AllFavourable(cfg, st, envs)
    ensures var n := AgainAndAgain(cfg, st, envs); Drift(cfg, st, n) && Steady(cfg, n) && n.status.phase == ReadyPhase
    decreases |envs|
  {
    if envs == [] {
      RestsDrifts(cfg, st, R(st, None));
    } else {
      var n := Again(cfg, envs[0], st).st;
      AgainDrifts(cfg, envs[0], st);
      DriftsOn(cfg, n, envs[1..]);
      DriftOn(cfg, st, n, AgainAndAgain(cfg, st, envs));
    }
    hide Again, Steady, Favourable, Drift;
  }

  /** Idempotence: after a favourable pass any number of further ones, each reading
      something else as long as it is favourable too, say other credentials, applications
      or console claims, end in Ready and leave every ApplicationSet, managed cluster,
      argo secret, kubeconfig, import secret and add-on as it was, and every condition
      with its reason and time, but that the console URL may be found after all. At most
      they add the instance's missing password secret and further setup secrets. */
  lemma ReadyStaysReady(cfg: Config, env: Env, s: Stored, w: Server, envs: seq<Env>)
    requires StoredInv(s, w) && HubInv(cfg, w) && StoredBacked(cfg, s, w)
    requires Favourable(cfg, env, PassStart(cfg, env, s, w))
    requires AllFavourable(cfg, Pass(cfg, env, s, w).st, envs)
    ensures var a := Pass(cfg, env, s, w).st;
      var b := AgainAndAgain(cfg, a, envs);
      && a.status.phase == ReadyPhase && b.status.phase == ReadyPhase
      && b.hub == a.hub.(passwords := b.hub.passwords)
      && (forall x | x in a.hub.passwords :: x in b.hub.passwords && b.hub.passwords[x] == a.hub.passwords[x])
      && b.hub.passwords.Keys <= a.hub.passwords.Keys + {cfg.Me()}
      && (forall t | t != ConsoleURLRetrieved :: Get(b.status.conditions, t) == Get(a.status.conditions, t))
      && ConsoleOn(Get(a.status.conditions, ConsoleURLRetrieved), Get(b.status.conditions, ConsoleURLRetrieved))
      && b.status == a.status.(conditions := b.status.conditions, consoleURL := b.status.consoleURL,
                               setupSecrets := b.status.setupSecrets)
      && (forall x | x in a.status.setupSecrets :: x in b.status.setupSecrets)
  {
    var first := Pass(cfg, env, s, w);
    FavourablePassIsReady(cfg, env, s, w);
    ArrivedIsSteady(cfg, env, first);
    DriftsOn(cfg, first.st, envs);
    var b := AgainAndAgain(cfg, first.st, envs);
    DriftKeepsMarks(cfg, first.st, b);
    hide Pass, Steady, AllFavourable, AgainAndAgain, Favourable, GoodSt, Settled, HubInv, StoredInv, Get, Put;
  }
}
