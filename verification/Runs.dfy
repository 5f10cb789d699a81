/** Whole lives of an instance: any sequence of passes, lost status writes, interference
    by others and a deletion, in any order. */
module Runs {
  import opened Generators
  import opened Conditions
  import opened Hub
  import opened Lifecycle
  import opened Passes
  import opened HubInvariants
  import opened Deletion

  // Released: the finalizer is gone; `templateFound` is what the last pass saw.
  datatype End = Alive | Released(templateFound: bool)

  datatype Life = Life(stored: Stored, hub: Server, deleting: bool, end: End)

  datatype Event =
    | Reconcile(env: Env, recorded: bool)       // recorded: the final status write took
    | Others(after: Server)
    | DeletionRequested
    | ProviderReports(status: ConditionStatus)  // an experimental provider sets the install condition

  // A crash ends the pass before the status write.
  function Recorded(s: Stored, r: R, recorded: bool): Stored {
    if recorded && r.err != Some(Crash) then Saved(r.st.status) else s
  }

  function Reported(s: Stored, status: ConditionStatus): Stored {
    match s
    case Fresh => s
    case Saved(st) =>
      Saved(st.(conditions := st.conditions.(installSucceeded := st.conditions.installSucceeded.(status := status))))
  }

  function Step(cfg: Config, l: Life, e: Event): Life {
    match e
    case Others(n) => if Rely(cfg.Me(), l.hub, n) then l.(hub := n) else l
    case DeletionRequested => l.(deleting := true)
    case ProviderReports(status) =>
      if l.end.Alive? && cfg.experimental && status != Unknown then l.(stored := Reported(l.stored, status)) else l
    case Reconcile(env, recorded) =>
      if !l.end.Alive? then l
      else if l.deleting then
        var (w, released) := DeletePass(cfg, env, l.hub);
        l.(hub := w, end := if released then Released(env.templateFound) else Alive)
      else
        var r := Pass(cfg, env, l.stored, l.hub);
        l.(stored := Recorded(l.stored, r, recorded), hub := r.st.hub)
  }

  function Run(cfg: Config, l: Life, events: seq<Event>): Life
    decreases |events|
  {
    if events == [] then l else Run(cfg, Step(cfg, l, events[0]), events[1..])
  }

  ghost predicate LifeInv(cfg: Config, l: Life) {
    && HubInv(cfg, l.hub) && StoredInv(l.stored, l.hub)
    && StoredBacked(cfg, l.stored, l.hub)
    && (l.end.Released? ==> l.deleting && RestGone(cfg, l.hub))
    && (l.end == Released(true) ==> AllGone(cfg, l.hub))
  }

  // An instance that has just been created, on a server that knows nothing of it.
  ghost predicate Newborn(cfg: Config, l: Life) {
    && l == Life(Fresh, l.hub, false, Alive)
    && ServerOk(l.hub) && (forall m :: NotIn(cfg, l.hub, m)) && NoClusters(cfg, l.hub) && NoSecrets(cfg, l.hub)
  }

  lemma NewbornInv(cfg: Config, l: Life)
    requires Newborn(cfg, l)
    ensures LifeInv(cfg, l)
  {
    forall m | m in l.hub.appSets ensures Own(cfg.Me(), l.hub.appSets[m].generators) == [] {
      assert NotIn(cfg, l.hub, m);
    }
  }

  // Nothing recorded is taken back.
  ghost predicate StoredAdvances(a: Stored, b: Stored, w: Server) {
    a.Saved? ==> b.Saved? && Advances(St(a.status, w), St(b.status, w))
  }

  lemma OthersKeep(cfg: Config, l: Life, n: Server)
    requires LifeInv(cfg, l) && Rely(cfg.Me(), l.hub, n)
    ensures LifeInv(cfg, l.(hub := n))
  {
    RelyEvolves(cfg, l.hub, n);
    if l.stored.Saved? {
      GrownBacked(cfg, l.stored.status, l.hub, n);
    }
    RelyGone(cfg, l.hub, n);
    hide Rely, HubInv, Backed, Grows, AllGone, RestGone;
  }

  lemma RelyGone(cfg: Config, w: Server, n: Server)
    requires Rely(cfg.Me(), w, n)
    ensures RestGone(cfg, w) ==> RestGone(cfg, n)
    ensures AllGone(cfg, w) ==> AllGone(cfg, n)
  {
    if AllGone(cfg, w) {
      forall m ensures NotIn(cfg, n, m) {
        assert NotIn(cfg, w, m);
      }
    }
  }

  lemma ReportKeeps(cfg: Config, l: Life, status: ConditionStatus)
    requires LifeInv(cfg, l) && cfg.experimental && status != Unknown
    ensures LifeInv(cfg, l.(stored := Reported(l.stored, status)))
    ensures StoredAdvances(l.stored, Reported(l.stored, status), l.hub)
  {
    if l.stored.Saved? {
      var a, b := St(l.stored.status, l.hub), St(Reported(l.stored, status).status, l.hub);
      Unmoved(a, b, ClusterInstallSucceeded);
    }
    hide HubInv, AllGone, RestGone;
  }

  // The status invariant does not depend on the server, nor does what is taken back.
  lemma StoredAnywhere(s: Stored, w: Server, n: Server)
    requires StoredInv(s, w)
    ensures StoredInv(s, n)
  {
    if s.Saved? {
      assert forall t :: Is(St(s.status, n), t, Unknown) == Is(St(s.status, w), t, Unknown);
    }
  }

  lemma AdvancesAnywhere(a: St, b: St, w: Server)
    requires Advances(a, b)
    ensures Advances(St(a.status, w), St(b.status, w))
  {
    forall t | Latched(t) && On(St(a.status, w), t) ensures On(St(b.status, w), t) {
      assert On(a, t) && On(b, t);
    }
  }

  lemma PassStepKeeps(cfg: Config, l: Life, env: Env, recorded: bool)
    requires LifeInv(cfg, l) && !l.deleting
    ensures LifeInv(cfg, Step(cfg, l, Reconcile(env, recorded)))
    ensures StoredAdvances(l.stored, Step(cfg, l, Reconcile(env, recorded)).stored, l.hub)
  {
    hide Pass, HubInv, Backed, Grows, AllGone, RestGone, StatusInv, Advances;
    PassAdvances(cfg, env, l.stored, l.hub);
    PassKeepsHub(cfg, env, l.stored, l.hub);
    var r := Pass(cfg, env, l.stored, l.hub);
    StoredAnywhere(l.stored, l.hub, r.st.hub);
    AdvancesSelf(l.stored, l.hub);
    AdvancesAnywhere(PassStart(cfg, env, l.stored, l.hub), r.st, l.hub);
  }

  lemma DeleteStepKeeps(cfg: Config, l: Life, env: Env, recorded: bool)
    requires LifeInv(cfg, l) && l.deleting && l.end.Alive?
    ensures LifeInv(cfg, Step(cfg, l, Reconcile(env, recorded)))
  {
    DeletePassClears(cfg, env, l.hub);
    hide DeletePass, HubInv, Backed, AllGone, RestGone, Chain, TwoValued, On;
  }

  lemma StepKeeps(cfg: Config, l: Life, e: Event)
    requires LifeInv(cfg, l)
    ensures LifeInv(cfg, Step(cfg, l, e)) && StoredAdvances(l.stored, Step(cfg, l, e).stored, l.hub)
  {
    match e
    case Others(n) =>
      if Rely(cfg.Me(), l.hub, n) {
        OthersKeep(cfg, l, n);
      }
    case DeletionRequested =>
    case ProviderReports(status) =>
      if cfg.experimental && status != Unknown {
        ReportKeeps(cfg, l, status);
      }
    case Reconcile(env, recorded) =>
      if l.end.Alive? && l.deleting {
        DeleteStepKeeps(cfg, l, env, recorded);
      } else if l.end.Alive? {
        PassStepKeeps(cfg, l, env, recorded);
      }
  }

  lemma {:induction false} RunKeeps(cfg: Config, l: Life, events: seq<Event>)
    requires LifeInv(cfg, l)
    ensures LifeInv(cfg, Run(cfg, l, events)) && StoredAdvances(l.stored, Run(cfg, l, events).stored, l.hub)
    decreases |events|
  {
    hide LifeInv, Step, Advances;
    if events == [] {
      AdvancesSelf(l.stored, l.hub);
    } else {
      var n := Step(cfg, l, events[0]);
      StepKeeps(cfg, l, events[0]);
      RunKeeps(cfg, n, events[1..]);
      AdvancesOn(l.stored, n.stored, Run(cfg, l, events).stored, l.hub, n.hub);
    }
  }

  lemma AdvancesSelf(a: Stored, w: Server)
    ensures StoredAdvances(a, a, w)
  {}

  lemma AdvancesOn(a: Stored, b: Stored, c: Stored, w: Server, n: Server)
    requires StoredAdvances(a, b, w) && StoredAdvances(b, c, n)
    ensures StoredAdvances(a, c, w)
  {}

  lemma {:induction false} RunAppend(cfg: Config, l: Life, a: seq<Event>, b: seq<Event>)
    ensures Run(cfg, l, a + b) == Run(cfg, Run(cfg, l, a), b)
    decreases |a|
  {
    hide Step;
    if a == [] {
      assert a + b == b;
    } else {
      assert (a + b)[1..] == a[1..] + b;
      RunAppend(cfg, Step(cfg, l, a[0]), a[1..], b);
    }
  }

  /** In every life, whatever fails and whatever status writes are lost: no ApplicationSet
      lists the instance twice, and only its target sets list it at all; it never has two
      managed clusters; the recorded conditions form the chain; Ready is recorded only
      with the setup succeeded; without the experimental provider a recorded install is
      backed by the kubeconfig secret, the deletion included; and once the finalizer is released with the
      template present, nothing of the instance is left. */
  lemma EveryLife(cfg: Config, born: Life, events: seq<Event>)
    requires Newborn(cfg, born)
    ensures var l := Run(cfg, born, events);
      && (forall m | m in l.hub.appSets :: |Own(cfg.Me(), l.hub.appSets[m].generators)| <= 1)
      && (forall m | m in l.hub.appSets && HasOwn(cfg.Me(), l.hub.appSets[m].generators) :: Target(cfg, m))
      && |MyClusters(cfg.Me(), l.hub.clusters)| <= 1
      && (l.stored.Saved? ==>
            var st := St(l.stored.status, l.hub);
            && (On(st, ClusterSetupSucceeded) ==> On(st, ClusterSetupCreated))
            && (On(st, ClusterSetupCreated) ==> On(st, ArgoClusterAdded))
            && (On(st, ArgoClusterAdded) ==> On(st, ManagedClusterImported))
            && (On(st, ManagedClusterImported) ==> On(st, ManagedClusterCreated))
            && (st.status.phase == ReadyPhase ==> On(st, ClusterSetupSucceeded))
            && (!cfg.experimental && On(st, ClusterInstallSucceeded) ==> cfg.Me() in l.hub.kubeconfigs))
      && (l.end == Released(true) ==>
            && (forall m | m in l.hub.appSets :: !HasOwn(cfg.Me(), l.hub.appSets[m].generators))
            && MySecrets(cfg.Me(), l.hub.argoSecrets) == []
            && (cfg.enableManagedCluster ==> MyClusters(cfg.Me(), l.hub.clusters) == []))
  {
    NewbornInv(cfg, born);
    RunKeeps(cfg, born, events);
    var l := Run(cfg, born, events);
    hide Run, On, TwoValued, Own, HasOwn, MyClusters, MySecrets, Target;
    if l.end == Released(true) {
      forall m | m in l.hub.appSets ensures !HasOwn(cfg.Me(), l.hub.appSets[m].generators) {
        assert NotIn(cfg, l.hub, m);
      }
    }
  }

  /** What a life has recorded by some moment it keeps at every later one: the six latched
      conditions, the API server URL, the first login time, the setup secrets. */
  lemma NeverTakenBack(cfg: Config, born: Life, before: seq<Event>, after: seq<Event>)
    requires Newborn(cfg, born)
    ensures StoredAdvances(Run(cfg, born, before).stored, Run(cfg, born, before + after).stored, born.hub)
  {
    hide Run, Chain, TwoValued;
    NewbornInv(cfg, born);
    RunKeeps(cfg, born, before);
    var l := Run(cfg, born, before);
    RunKeeps(cfg, l, after);
    RunAppend(cfg, born, before, after);
    assert StoredAdvances(l.stored, Run(cfg, l, after).stored, l.hub);
  }

  function Open(b: Board, t: ConditionType): nat { if Get(b, t).status == True then 0 else 1 }

  // How many of the latched conditions are still to come.
  function Remaining(s: Stored): nat {
    match s
    case Fresh => 6
    case Saved(st) =>
      var b := st.conditions;
      Open(b, ClusterDefinitionCreated) + Open(b, ManagedClusterCreated) + Open(b, ManagedClusterImported)
        + Open(b, ArgoClusterAdded) + Open(b, ClusterSetupCreated) + Open(b, ClusterSetupSucceeded)
  }

  lemma AdvancingShrinks(a: Stored, b: Stored, w: Server)
    requires StoredAdvances(a, b, w)
    ensures Remaining(b) <= Remaining(a)
  {
    if a.Saved? {
      var x, y := St(a.status, w), St(b.status, w);
      assert forall t | Latched(t) && On(x, t) :: On(y, t);
      assert Latched(ClusterDefinitionCreated) && Latched(ManagedClusterCreated) && Latched(ManagedClusterImported)
          && Latched(ArgoClusterAdded) && Latched(ClusterSetupCreated) && Latched(ClusterSetupSucceeded);
    }
  }

  /** The work left never grows, under any environment. */
  lemma RemainingNeverRises(cfg: Config, born: Life, before: seq<Event>, after: seq<Event>)
    requires Newborn(cfg, born)
    ensures Remaining(Run(cfg, born, before + after).stored) <= Remaining(Run(cfg, born, before).stored)
  {
    NeverTakenBack(cfg, born, before, after);
    AdvancingShrinks(Run(cfg, born, before).stored, Run(cfg, born, before + after).stored, born.hub);
    hide Run;
  }
}
