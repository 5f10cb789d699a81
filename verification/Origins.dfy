/** Where what a life has recorded comes from: some pass of it saw the grounds for it. */
module Origins {
  import opened Conditions
  import opened Applications
  import opened Hub
  import opened Lifecycle
  import opened Passes
  import opened HubInvariants
  import opened Deletion
  import opened Runs
  import opened Causes
  import Forecast

  // The part of a step's cause that a pass reads from the outside.
  ghost predicate Grounds(cfg: Config, env: Env, k: nat) {
    match k
    case 1 => Installed(env)
    case 3 => cfg.Registers() ==> LastWantedIsTrue(env.importConditions)
    case 5 => cfg.Registers() ==> env.consoleClaims != []
    case 6 => env.login && (cfg.secretRef.None? ==> env.day1 != [])
    case 8 => cfg.setups != [] ==> env.day2 != [] && forall i | 0 <= i < |env.day2| :: Flawless(env.day2[i])
    case _ => true
  }

  // With a secret reference there is no install step, and an experimental provider reports
  // the installation itself.
  predicate Asked(cfg: Config, k: nat) {
    1 <= k <= 8 && (k == 1 ==> cfg.secretRef.None? && !cfg.experimental)
  }

  lemma StageGround(cfg: Config, env: Env, st: St, j: nat, k: nat)
    requires j < STAGE_COUNT && TwoValued(st) && Asked(cfg, k) && !On(st, Subject(cfg, k))
    ensures TwoValued(Stage(cfg, env, st, j).st)
    ensures On(Stage(cfg, env, st, j).st, Subject(cfg, k)) ==> Grounds(cfg, env, k)
  {
    hide Stage, On, StepFacts, TwoValued, Installed, Flawless, LastWantedIsTrue;
    var r := Stage(cfg, env, st, j);
    StageSteps(cfg, env, st, j);
    Forecast.MarksLeft(cfg, st, r.st, r.err == None, j);
    if j == k {
      NothingIsTurnedOnWithoutCause(cfg, env, st, k);
    }
  }

  lemma {:induction false} StagesGround(cfg: Config, env: Env, st: St, j: nat, k: nat)
    requires j <= STAGE_COUNT && TwoValued(st) && Asked(cfg, k) && !On(st, Subject(cfg, k))
    ensures On(Stages(cfg, env, st, j).st, Subject(cfg, k)) ==> Grounds(cfg, env, k)
    decreases STAGE_COUNT - j
  {
    hide Stage, On, TwoValued, Grounds, Subject, Asked;
    if j < STAGE_COUNT {
      var r := Stage(cfg, env, st, j);
      StageGround(cfg, env, st, j, k);
      if r.err == None && !On(r.st, Subject(cfg, k)) {
        StagesGround(cfg, env, r.st, j + 1, k);
      }
    }
  }

  ghost predicate Recorded(cfg: Config, l: Life, k: nat) {
    l.stored.Saved? && Get(l.stored.status.conditions, Subject(cfg, k)).status == True
  }

  lemma PassGround(cfg: Config, env: Env, s: Stored, w: Server, k: nat)
    requires StoredInv(s, w) && Asked(cfg, k)
    requires s.Saved? ==> Get(s.status.conditions, Subject(cfg, k)).status != True
    ensures On(Pass(cfg, env, s, w).st, Subject(cfg, k)) ==> Grounds(cfg, env, k)
  {
    StartInv(cfg, env, s, w);
    var st := PassStart(cfg, env, s, w);
    assert !On(st, Subject(cfg, k)) && TwoValued(st);
    hide Stages, Grounds, TwoValued, PassStart, StatusInv, StoredInv;
    StagesGround(cfg, env, st, 0, k);
  }

  lemma StepGround(cfg: Config, l: Life, e: Event, k: nat)
    requires LifeInv(cfg, l) && Asked(cfg, k) && !Recorded(cfg, l, k) && Recorded(cfg, Step(cfg, l, e), k)
    ensures e.Reconcile? && Grounds(cfg, e.env, k)
  {
    hide Pass, DeletePass, Rely, Grounds, HubInv, StoredInv, StoredBacked, RestGone, AllGone;
    if e.Reconcile? && l.end.Alive? && !l.deleting {
      PassGround(cfg, e.env, l.stored, l.hub, k);
    } else if e.ProviderReports? {
      ReportGround(cfg, l.stored, e.status, k);
    }
  }

  lemma ReportGround(cfg: Config, s: Stored, status: ConditionStatus, k: nat)
    requires Asked(cfg, k) && cfg.experimental && s.Saved?
    ensures Get(Reported(s, status).status.conditions, Subject(cfg, k)) == Get(s.status.conditions, Subject(cfg, k))
  {}

  /** In every life, whatever is recorded of the installation, the import, the console, the
      login to the new cluster or the setup has its grounds in some pass of that life: an
      application without errors whose provider's objects say ready; an import condition
      that is True; a claim of the console URL; a login; setup applications that are there
      and all flawless. */
  lemma {:induction false} EverythingHasGrounds(cfg: Config, l: Life, events: seq<Event>, k: nat)
    requires LifeInv(cfg, l) && Asked(cfg, k) && !Recorded(cfg, l, k) && Recorded(cfg, Run(cfg, l, events), k)
    ensures exists i :: 0 <= i < |events| && events[i].Reconcile? && Grounds(cfg, events[i].env, k)
    decreases |events|
  {
    hide LifeInv, Step, Recorded, Grounds, Asked;
    if events != [] {
      var n := Step(cfg, l, events[0]);
      StepKeeps(cfg, l, events[0]);
      if Recorded(cfg, n, k) {
        StepGround(cfg, l, events[0], k);
      } else {
        EverythingHasGrounds(cfg, n, events[1..], k);
        var i :| 0 <= i < |events[1..]| && events[1..][i].Reconcile? && Grounds(cfg, events[1..][i].env, k);
        assert events[i + 1] == events[1..][i];
      }
    }
  }

  // There are some, none with an error condition, all finished and healthy throughout.
  predicate AllFlawless(apps: seq<Application>) {
    apps != [] && forall j | 0 <= j < |apps| ::
      && (forall x | 0 <= x < |apps[j].errors| :: !apps[j].errors[x])
      && apps[j].operation == Some(Succeeded) && apps[j].health == Healthy
      && forall x | 0 <= x < |apps[j].resources| :: apps[j].resources[x].health == Healthy
  }

  lemma ReadyIsRecorded(cfg: Config, l: Life)
    requires LifeInv(cfg, l) && l.stored.Saved? && l.stored.status.phase == ReadyPhase
    ensures Recorded(cfg, l, 8)
  {
    assert On(St(l.stored.status, l.hub), ClusterSetupSucceeded);
    hide HubInv, RestGone, AllGone, StoredBacked;
  }

  lemma NothingRecorded(cfg: Config, born: Life, k: nat)
    requires Newborn(cfg, born)
    ensures !Recorded(cfg, born, k)
  {}

  lemma SetupGrounds(cfg: Config, env: Env)
    requires Grounds(cfg, env, 8) && cfg.setups != []
    ensures AllFlawless(env.day2)
  {
    assert forall j | 0 <= j < |env.day2| :: Flawless(env.day2[j]);
  }

  /** So no instance with setups is ever recorded Ready in whose life no pass has found all
      the setup applications without an error condition, healthy and finished. */
  lemma ReadyHasGrounds(cfg: Config, born: Life, events: seq<Event>)
    requires Newborn(cfg, born) && cfg.setups != []
    requires var s := Run(cfg, born, events).stored; s.Saved? && s.status.phase == ReadyPhase
    ensures exists i :: 0 <= i < |events| && events[i].Reconcile? && AllFlawless(events[i].env.day2)
  {
    NewbornInv(cfg, born);
    RunKeeps(cfg, born, events);
    ReadyIsRecorded(cfg, Run(cfg, born, events));
    hide LifeInv, Run, Newborn, AllFlawless, Grounds, Recorded;
    assert !Recorded(cfg, born, 8) by {
      NothingRecorded(cfg, born, 8);
    }
    EverythingHasGrounds(cfg, born, events, 8);
    var i :| 0 <= i < |events| && events[i].Reconcile? && Grounds(cfg, events[i].env, 8);
    SetupGrounds(cfg, events[i].env);
  }
}
