/** When a recorded condition last changed. */
module Times {
  import opened Conditions
  import Applications
  import opened Hub
  import opened Lifecycle
  import opened Passes
  import opened HubInvariants
  import opened Deletion
  import opened Runs

  // From `m` to `n` in a pass at time `now`: the time moves exactly with the status.
  predicate Timed(m: Mark, n: Mark, now: int) {
    n.transition == if n.status == m.status then m.transition else now
  }

  function MarkOf(st: St, t: ConditionType): Mark { Get(st.status.conditions, t) }

  // -------- one step --------

  // The condition a step may write is written at most once.
  ghost predicate StepTimed(cfg: Config, env: Env, st: St, k: nat)
    requires k < STAGE_COUNT
  {
    Timed(MarkOf(st, Subject(cfg, k)), MarkOf(Stage(cfg, env, st, k).st, Subject(cfg, k)), env.now)
  }

  lemma SecretRefTimed(cfg: Config, env: Env, st: St)
    ensures cfg.secretRef.Some? ==> StepTimed(cfg, env, st, 0)
  {
    hide At, CreateClusterSecrets, OnlyChanges;
  }

  lemma DefinitionTimed(cfg: Config, env: Env, st: St)
    ensures cfg.secretRef.None? ==> StepTimed(cfg, env, st, 0)
  {
    hide At, CreateDay1, OnlyChanges;
  }

  lemma ProviderTimed(cfg: Config, env: Env, st: St, app: Applications.Application)
    ensures Timed(MarkOf(st, ClusterInstallSucceeded),
        MarkOf(ReconcileProvider(cfg, env, st, app).st, ClusterInstallSucceeded), env.now)
  {
    hide GetClusterStatus, OnlyChanges;
  }

  lemma StatusTimed(cfg: Config, env: Env, st: St)
    ensures Timed(MarkOf(st, ClusterInstallSucceeded),
        MarkOf(ReconcileClusterStatus(cfg, env, st).st, ClusterInstallSucceeded), env.now)
  {
    hide Handled, ReconcileProvider, OnlyChanges, Applications.Classify;
    if env.day1 != [] {
      ProviderTimed(cfg, env, SetPhase(st.(hub := Handled(cfg, env, st.hub, ListDay1)), ClusterInstallingPhase),
        env.day1[0]);
    }
  }

  lemma InstallTimed(cfg: Config, env: Env, st: St)
    ensures StepTimed(cfg, env, st, 1)
  {
    hide ReconcileClusterStatus, OnlyChanges;
    StatusTimed(cfg, env, st);
  }

  lemma ClusterTimed(cfg: Config, env: Env, st: St)
    ensures StepTimed(cfg, env, st, 2)
  {
    hide At, CreateManagedCluster, FirstCluster, OnlyChanges;
  }

  lemma ImportTimed(cfg: Config, env: Env, st: St)
    ensures StepTimed(cfg, env, st, 3)
  {
    hide EnsureImportSecret, Applications.LastIsTrue, OnlyChanges;
  }

  lemma KlusterletTimed(cfg: Config, env: Env, st: St)
    ensures StepTimed(cfg, env, st, 4)
  {
    hide EnsureKlusterlet, OnlyChanges;
  }

  lemma ConsoleTimed(cfg: Config, env: Env, st: St)
    ensures StepTimed(cfg, env, st, 5)
  {
    hide At, FirstCluster, OnlyChanges;
  }

  lemma ArgoTimed(cfg: Config, env: Env, st: St)
    ensures StepTimed(cfg, env, st, 6)
  {
    hide AddClusterToArgo, OnlyChanges;
  }

  lemma SetupCreateTimed(cfg: Config, env: Env, st: St)
    ensures StepTimed(cfg, env, st, 7)
  {
    hide CreateDay2, OnlyChanges;
  }

  lemma SetupTimed(cfg: Config, env: Env, st: St)
    ensures StepTimed(cfg, env, st, 8)
  {
    hide At, SetupStatuses, AllHealthy, SomeAre, OnlyChanges;
  }

  lemma StepIsTimed(cfg: Config, env: Env, st: St, k: nat)
    requires k < 9
    ensures StepTimed(cfg, env, st, k)
  {
    hide StepTimed;
    match k
    case 0 =>
      SecretRefTimed(cfg, env, st);
      DefinitionTimed(cfg, env, st);
    case 1 => InstallTimed(cfg, env, st);
    case 2 => ClusterTimed(cfg, env, st);
    case 3 => ImportTimed(cfg, env, st);
    case 4 => KlusterletTimed(cfg, env, st);
    case 5 => ConsoleTimed(cfg, env, st);
    case 6 => ArgoTimed(cfg, env, st);
    case 7 => SetupCreateTimed(cfg, env, st);
    case _ => SetupTimed(cfg, env, st);
  }

  // What step k does to the mark of any condition.
  lemma StageTimed(cfg: Config, env: Env, st: St, k: nat, t: ConditionType)
    requires TwoValued(st) && k < STAGE_COUNT && t != Ready
    ensures var r := Stage(cfg, env, st, k);
      && (k == 9 || t != Subject(cfg, k) ==> MarkOf(r.st, t) == MarkOf(st, t))
      && Timed(MarkOf(st, t), MarkOf(r.st, t), env.now)
  {
    StageSteps(cfg, env, st, k);
    hide Stage, TwoValued;
    var r := Stage(cfg, env, st, k);
    if k != 9 {
      StepIsTimed(cfg, env, st, k);
      GetPut(st.status.conditions, Subject(cfg, k), Get(r.st.status.conditions, Subject(cfg, k)), t);
    }
  }

  // -------- one pass --------

  // The only step that writes the condition.
  function Writer(cfg: Config, t: ConditionType): nat {
    match t
    case ClusterDefinitionCreated => 0
    case ClusterInstallSucceeded => if cfg.secretRef.Some? then 0 else 1
    case ManagedClusterCreated => 2
    case ManagedClusterImported => 3
    case KlusterletAddonCreated => 4
    case ConsoleURLRetrieved => 5
    case ArgoClusterAdded => 6
    case ClusterSetupCreated => 7
    case _ => 8
  }

  // With a secret reference the second step is skipped.
  lemma SecondStepSkipped(cfg: Config, env: Env, st: St)
    requires cfg.secretRef.Some?
    ensures Stage(cfg, env, st, 1).st == st
  {}

  lemma StageKeepsTwoValued(cfg: Config, env: Env, st: St, k: nat)
    requires TwoValued(st) && k < STAGE_COUNT
    ensures TwoValued(Stage(cfg, env, st, k).st)
  {
    StageSteps(cfg, env, st, k);
    hide Stage;
    if k != 9 {
      Unmoved(st, Stage(cfg, env, st, k).st, Subject(cfg, k));
    }
  }

  lemma {:induction false} StagesTimed(cfg: Config, env: Env, st: St, k: nat, t: ConditionType)
    requires TwoValued(st) && k <= STAGE_COUNT && t != Ready
    ensures var r := Stages(cfg, env, st, k);
      && (Writer(cfg, t) < k ==> MarkOf(r.st, t) == MarkOf(st, t))
      && Timed(MarkOf(st, t), MarkOf(r.st, t), env.now)
    decreases STAGE_COUNT - k
  {
    hide Stage, TwoValued;
    if k < STAGE_COUNT {
      var r := Stage(cfg, env, st, k);
      StageTimed(cfg, env, st, k, t);
      if cfg.secretRef.Some? {
        SecondStepSkipped(cfg, env, st);
      }
      assert MarkOf(r.st, t) != MarkOf(st, t) ==> Writer(cfg, t) == k;
      if r.err == None {
        StageKeepsTwoValued(cfg, env, st, k);
        StagesTimed(cfg, env, r.st, k + 1, t);
      }
    }
  }

  /** One pass under any environment: a condition's transition time moves exactly when its
      status differs from what it was at the start, and then to the time of the pass. */
  lemma PassIsTimed(cfg: Config, env: Env, s: Stored, w: Server, t: ConditionType)
    requires StoredInv(s, w) && t != Ready
    ensures Timed(Get(Begin(s, env.now).conditions, t), MarkOf(Pass(cfg, env, s, w).st, t), env.now)
  {
    var st := PassStart(cfg, env, s, w);
    StartInv(cfg, env, s, w);
    hide Stages, TwoValued, Chain;
    StagesTimed(cfg, env, st, 0, t);
  }

  // -------- whole lives --------

  function Shown(s: Stored, t: ConditionType): Option<ConditionStatus> {
    if s.Fresh? then None else Some(Get(s.status.conditions, t).status)
  }

  /** The time of the pass that last changed the recorded status of the condition, for a
      life that goes on from `l`. A pass whose status write is lost changes nothing. */
  function LastChange(cfg: Config, l: Life, events: seq<Event>, t: ConditionType, sofar: int): int
    decreases |events|
  {
    if events == [] then sofar
    else
      var e, n := events[0], Step(cfg, l, events[0]);
      LastChange(cfg, n, events[1..], t,
        if e.Reconcile? && Shown(n.stored, t) != Shown(l.stored, t) then e.env.now else sofar)
  }

  // The recorded time is `time`, once anything is recorded.
  ghost predicate TimeIs(s: Stored, t: ConditionType, time: int) {
    s.Saved? ==> Get(s.status.conditions, t).transition == time
  }

  lemma FreshTimes(now: int, t: ConditionType)
    requires t != Ready
    ensures Get(Begin(Fresh, now).conditions, t).transition == now
  {}

  lemma ReconcileTimed(cfg: Config, l: Life, env: Env, recorded: bool, t: ConditionType, time: int)
    requires LifeInv(cfg, l) && t != Ready && TimeIs(l.stored, t, time)
    ensures var n := Step(cfg, l, Reconcile(env, recorded));
      TimeIs(n.stored, t, if Shown(n.stored, t) != Shown(l.stored, t) then env.now else time)
  {
    PassIsTimed(cfg, env, l.stored, l.hub, t);
    FreshTimes(env.now, t);
    hide Pass, DeletePass, HubInv, StatusInv, NewBoard, AllGone, RestGone;
  }

  lemma {:induction false} RunTimed(cfg: Config, l: Life, events: seq<Event>, t: ConditionType, time: int)
    requires LifeInv(cfg, l) && t != Ready && TimeIs(l.stored, t, time)
    ensures TimeIs(Run(cfg, l, events).stored, t, LastChange(cfg, l, events, t, time))
    decreases |events|
  {
    if events != [] {
      var e, n := events[0], Step(cfg, l, events[0]);
      StepKeeps(cfg, l, e);
      if e.Reconcile? {
        ReconcileTimed(cfg, l, e.env, e.recorded, t, time);
        RunTimed(cfg, n, events[1..], t, if Shown(n.stored, t) != Shown(l.stored, t) then e.env.now else time);
      } else {
        OtherEventsKeepTimes(cfg, l, e, t, time);
        RunTimed(cfg, n, events[1..], t, time);
      }
    }
    hide LifeInv, Step, TimeIs, Shown;
  }

  lemma OtherEventsKeepTimes(cfg: Config, l: Life, e: Event, t: ConditionType, time: int)
    requires !e.Reconcile? && TimeIs(l.stored, t, time)
    ensures TimeIs(Step(cfg, l, e).stored, t, time)
  {
    hide Rely;
  }

  /** In every life the recorded transition time of every condition is the time of the pass
      that last changed the condition's recorded status. */
  lemma RecordedTimeIsLastChange(cfg: Config, born: Life, events: seq<Event>, t: ConditionType)
    requires Newborn(cfg, born) && t != Ready && Run(cfg, born, events).stored.Saved?
    ensures Get(Run(cfg, born, events).stored.status.conditions, t).transition == LastChange(cfg, born, events, t, 0)
  {
    NewbornInv(cfg, born);
    RunTimed(cfg, born, events, t, 0);
    hide Run, LastChange, LifeInv;
  }

  // The recorded status of the condition is `s` at every moment of the run.
  predicate Steadily(cfg: Config, l: Life, events: seq<Event>, t: ConditionType, s: ConditionStatus)
    decreases |events|
  {
    Shown(l.stored, t) == Some(s) && (events != [] ==> Steadily(cfg, Step(cfg, l, events[0]), events[1..], t, s))
  }

  lemma {:induction false} SteadyKeepsTime(cfg: Config, l: Life, events: seq<Event>, t: ConditionType,
      s: ConditionStatus, sofar: int)
    requires Steadily(cfg, l, events, t, s)
    ensures LastChange(cfg, l, events, t, sofar) == sofar && Run(cfg, l, events).stored.Saved?
    decreases |events|
  {
    hide Step;
    if events != [] {
      SteadyKeepsTime(cfg, Step(cfg, l, events[0]), events[1..], t, s, sofar);
    }
  }

  /** As long as a condition's recorded status stays the same, so does its time, whatever
      passes come and go in between. */
  lemma TimeMovesWithStatusOnly(cfg: Config, born: Life, before: seq<Event>, after: seq<Event>, t: ConditionType,
      s: ConditionStatus)
    requires Newborn(cfg, born) && t != Ready && Steadily(cfg, Run(cfg, born, before), after, t, s)
    ensures var l, n := Run(cfg, born, before), Run(cfg, born, before + after);
      l.stored.Saved? && n.stored.Saved?
      && Get(n.stored.status.conditions, t).transition == Get(l.stored.status.conditions, t).transition
  {
    NewbornInv(cfg, born);
    RunKeeps(cfg, born, before);
    var l := Run(cfg, born, before);
    var time := if l.stored.Saved? then Get(l.stored.status.conditions, t).transition else 0;
    RunTimed(cfg, l, after, t, time);
    SteadyKeepsTime(cfg, l, after, t, s, time);
    RunAppend(cfg, born, before, after);
    hide Run, LastChange, LifeInv, StoredAdvances;
  }
}
