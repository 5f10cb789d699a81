/** Any number of instances on one server, their API calls interleaved one by one. */
module Systems {
  import opened Generators
  import opened Conditions
  import opened Hub
  import opened Lifecycle
  import opened Passes
  import opened Calls
  import opened HubInvariants
  import opened Deletion
  import opened DeletionCalls
  import opened Runs
  import opened Coexistence
  import SharedAppSets

  // A pass under way: the calls still to make, the server right after the last one made,
  // the status it began with, and the life as the pass will have left it.
  datatype Work =
    | Idle
    | Busy(calls: seq<Call>, mark: Server, began: Stored, removing: bool, next: Life)

  datatype Resident = Resident(cfg: Config, stored: Stored, deleting: bool, end: End, work: Work)

  // `held`: the copies of ApplicationSets that workers outside of the residents hold.
  datatype System = System(
    hub: Server, held: map<SharedAppSets.Worker, SharedAppSets.Snapshot>, residents: seq<Resident>)

  datatype Act =
    | Begin(env: Env, recorded: bool)      // start a pass, or a delete pass
    | Next                                 // the next call is handled
    | Finish                               // the last one: the status is written
    | Abort                                // the operator dies in the middle of it
    | RequestDeletion
    | Report(status: ConditionStatus)      // an experimental provider sets the install condition

  // What happens to resident `k`, and what anybody else does: a step on the
  // ApplicationSets, or a change of the other objects.
  datatype SystemEvent =
    | OfResident(k: nat, act: Act)
    | Store(action: SharedAppSets.Action)
    | Elsewhere(after: Server)

  function LifeOf(s: System, k: nat): Life
    requires k < |s.residents|
  {
    LifeAt(s.residents[k], s.hub)
  }

  function LifeAt(r: Resident, w: Server): Life {
    Life(r.stored, w, r.deleting, r.end)
  }

  // -------- one resident --------

  /** The environment of a pass is the record of how each of its calls turns out, the server
      it finds included. A run is told with these records, and a pass goes on only as its
      record says; whatever the interleaving, there is a record of it. */
  function Started(r: Resident, w: Server, env: Env, recorded: bool): Resident {
    r.(work := Busy(if r.deleting then DeletePassCalls(r.cfg, env, w) else PassCalls(r.cfg, env, r.stored, w),
                    w, r.stored, r.deleting, Runs.Step(r.cfg, LifeAt(r, w), Reconcile(env, recorded))))
  }

  predicate CanStart(r: Resident) {
    r.work.Idle? && r.end.Alive?
  }

  predicate CanCall(r: Resident, w: Server) {
    r.work.Busy? && r.work.calls != [] && w == r.work.calls[0].before
  }

  function AfterCall(r: Resident, w: Server): Server
    requires CanCall(r, w)
  {
    Apply(r.cfg, w, r.work.calls[0].change)
  }

  // The call that removes the finalizer is the last one of a delete pass.
  function Called(r: Resident, w: Server): Resident
    requires CanCall(r, w)
  {
    var rest := r.work.calls[1..];
    r.(work := r.work.(calls := rest, mark := AfterCall(r, w)), end := if rest == [] then r.work.next.end else r.end)
  }

  predicate CanFinish(r: Resident) {
    r.work.Busy? && r.work.calls == []
  }

  // The write is refused if the instance is no longer the one that the pass read.
  function Finished(r: Resident): Resident
    requires CanFinish(r)
  {
    r.(work := Idle,
       stored := if r.stored == r.work.began && r.deleting == r.work.removing then r.work.next.stored else r.stored)
  }

  // The resident and the server after what happens to the resident; what cannot happen
  // as things are changes nothing.
  function ResidentStep(r: Resident, w: Server, a: Act): (Resident, Server) {
    match a
    case Begin(env, recorded) => (if CanStart(r) then Started(r, w, env, recorded) else r, w)
    case Next => if CanCall(r, w) then (Called(r, w), AfterCall(r, w)) else (r, w)
    case Finish => (if CanFinish(r) then Finished(r) else r, w)
    case Abort => (r.(work := Idle), w)
    case RequestDeletion => (r.(deleting := true), w)
    case Report(status) =>
      (if r.end.Alive? && r.cfg.experimental && status != Unknown then r.(stored := Reported(r.stored, status))
          else r, w)
  }

  function PowersOf(removing: bool): Powers { if removing then Deleting else PASS }

  ghost predicate WorkInv(r: Resident, w: Server) {
    r.work.Busy? ==>
      && Rely(r.cfg.Me(), r.work.mark, w)
      && Trace(r.cfg, PowersOf(r.work.removing), r.work.mark, r.work.calls, r.work.next.hub)
      && LifeInv(r.cfg, r.work.next)
      && r.work.next.deleting == r.work.removing && (r.work.removing ==> r.deleting)
      && (r.end.Released? ==> r.work.calls == [])
      && StoredAdvances(r.work.began, r.work.next.stored, r.work.next.hub)
  }

  ghost predicate ResidentInv(r: Resident, w: Server) {
    LifeInv(r.cfg, LifeAt(r, w)) && WorkInv(r, w)
  }

  lemma OthersKeepResident(r: Resident, w: Server, n: Server)
    requires ResidentInv(r, w) && Rely(r.cfg.Me(), w, n)
    ensures ResidentInv(r, n)
  {
    OthersKeep(r.cfg, LifeAt(r, w), n);
    if r.work.Busy? {
      RelyOn(r.cfg.Me(), r.work.mark, w, n);
    }
    hide Rely, Trace, LifeInv;
  }

  lemma StoredAdvancesAnywhere(a: Stored, b: Stored, w: Server, n: Server)
    requires StoredAdvances(a, b, w)
    ensures StoredAdvances(a, b, n)
  {
    if a.Saved? {
      AdvancesAnywhere(St(a.status, w), St(b.status, w), n);
    }
    hide Advances;
  }

  lemma StartKeeps(r: Resident, w: Server, env: Env, recorded: bool)
    requires ResidentInv(r, w) && CanStart(r) && ServerOk(w)
    ensures ResidentInv(Started(r, w, env, recorded), w)
  {
    StepKeeps(r.cfg, LifeAt(r, w), Reconcile(env, recorded));
    StoredAdvancesAnywhere(r.stored, Started(r, w, env, recorded).work.next.stored, w,
      Started(r, w, env, recorded).work.next.hub);
    RelySelf(r.cfg.Me(), w);
    if r.deleting {
      DeletePassLeads(r.cfg, env, w);
    } else {
      PassLeads(r.cfg, env, r.stored, w);
    }
    hide Rely, Trace, LifeInv, Pass, DeletePass, PassCalls, DeletePassCalls, ServerOk;
  }

  // A call of a delete pass keeps the invariant too.
  lemma RemovalKeepsHub(cfg: Config, w: Server, x: Change)
    requires HubInv(cfg, w) && Legal(cfg, Deleting, w, x)
    ensures HubInv(cfg, Apply(cfg, w, x))
  {
    var n := Apply(cfg, w, x);
    hide HubInv;
    assert Shrinks(cfg, w, n) by {
      hide Without, WithoutCluster, WithoutSecret, MyClusters, MySecrets, Shrinks;
      ShrinksSelf(cfg, w, n.importSecrets, n.klusterlets);
      match x {
        case Leave(name) =>
          PutSetShrinks(cfg, w, name, AppSet(w.rv + 1, w.appSets[name].template,
            Without(cfg.Me(), w.appSets[name].generators)));
        case DropArgoSecret(s) => SecretRemovalShrinks(cfg, w, s.name);
        case DropCluster(mc) => ClusterRemovalShrinks(cfg, w, mc.name);
        case _ =>
      }
    }
    InvAfter(cfg, w, n);
  }

  lemma CallKeepsHub(cfg: Config, may: Powers, w: Server, x: Change)
    requires HubInv(cfg, w) && Legal(cfg, may, w, x)
    ensures HubInv(cfg, Apply(cfg, w, x)) && (may.Passing? ==> Grows(cfg, w, Apply(cfg, w, x)))
    ensures cfg.Me() in w.kubeconfigs ==> cfg.Me() in Apply(cfg, w, x).kubeconfigs
  {
    assert cfg.Me() in w.kubeconfigs ==> cfg.Me() in Apply(cfg, w, x).kubeconfigs;
    hide HubInv, Legal, Grows, Apply;
    if may.Deleting? {
      RemovalKeepsHub(cfg, w, x);
    } else {
      ChangeEvolves(cfg, may, w, x);
    }
  }

  lemma CallIsLegal(r: Resident, w: Server)
    requires ResidentInv(r, w) && CanCall(r, w)
    ensures Legal(r.cfg, PowersOf(r.work.removing), w, r.work.calls[0].change)
    ensures r.end.Alive? && (r.work.calls[1..] == [] ==> r.work.next.hub == AfterCall(r, w))
    ensures Trace(r.cfg, PowersOf(r.work.removing), AfterCall(r, w), r.work.calls[1..], r.work.next.hub)
  {
    hide Legal, Rely, LifeInv, Apply;
    assert Trace(r.cfg, PowersOf(r.work.removing), AfterCall(r, w), r.work.calls[1..], r.work.next.hub);
  }

  lemma CallKeepsLife(r: Resident, w: Server)
    requires ResidentInv(r, w) && CanCall(r, w)
    ensures LifeInv(r.cfg, LifeAt(Called(r, w), AfterCall(r, w)))
  {
    hide HubInv, Legal, Rely, Grows, Backed, Apply, RestGone, AllGone, StatusInv, Trace;
    var n := AfterCall(r, w);
    CallIsLegal(r, w);
    CallKeepsHub(r.cfg, PowersOf(r.work.removing), w, r.work.calls[0].change);
    StoredAnywhere(r.stored, w, n);
    if r.stored.Saved? {
      KeptBacked(r.cfg, r.stored.status, w, n);
    }
  }

  lemma CallKeeps(r: Resident, w: Server)
    requires ResidentInv(r, w) && CanCall(r, w)
    ensures ResidentInv(Called(r, w), AfterCall(r, w)) && ServerOk(AfterCall(r, w))
  {
    var n := AfterCall(r, w);
    CallKeepsLife(r, w);
    CallIsLegal(r, w);
    ChangeKeepsServer(r.cfg, PowersOf(r.work.removing), w, r.work.calls[0].change);
    RelySelf(r.cfg.Me(), n);
    hide LifeInv, Legal, Rely, ServerOk, Trace, AfterCall;
  }

  lemma FinishKeeps(r: Resident, w: Server)
    requires ResidentInv(r, w) && CanFinish(r)
    ensures ResidentInv(Finished(r), w)
  {
    var next := r.work.next;
    assert r.work.mark == next.hub;
    RelyEvolves(r.cfg, next.hub, w);
    if next.stored.Saved? {
      GrownBacked(r.cfg, next.stored.status, next.hub, w);
    }
    StoredAnywhere(next.stored, next.hub, w);
    hide HubInv, Rely, Grows, Backed, RestGone, AllGone, StatusInv;
  }

  // -------- the system --------

  ghost predicate Settlement(s: System) {
    && (forall i, j | 0 <= i < j < |s.residents| :: s.residents[i].cfg.Me() != s.residents[j].cfg.Me())
    && (forall i, j | 0 <= i < |s.residents| && 0 <= j < |s.residents| && i != j ::
          s.residents[i].cfg.Registers() ==> !Matches(s.residents[j].cfg.Me(), ClusterLabels(s.residents[i].cfg)))
  }

  // Steps on the shared sets that are not taken for a resident.
  ghost predicate Foreign(s: System, a: SharedAppSets.Action) {
    && (a.Get? || a.Put? || a.Abandon? ==> a.worker != 0)
    && forall i: nat | i < |s.residents| :: !SharedAppSets.ActsFor(s.residents[i].cfg.Me(), a)
  }

  // Changes of the other objects that leave every resident's own ones alone.
  ghost predicate Respectful(s: System, n: Server) {
    && n.rv == s.hub.rv && n.appSets == s.hub.appSets
    && forall i: nat | i < |s.residents| :: Rely(s.residents[i].cfg.Me(), s.hub, n)
  }

  ghost function SystemStep(s: System, e: SystemEvent): System {
    match e
    case OfResident(k, act) =>
      if k >= |s.residents| then s
      else
        var (r, n) := ResidentStep(s.residents[k], s.hub, act);
        With(s, k, r).(hub := n)
    case Store(a) =>
      if !Foreign(s, a) then s
      else
        s.(hub := AfterStep(s.hub, StoreOf(s.hub, s.held), a),
           held := SharedAppSets.Step(StoreOf(s.hub, s.held), a).held)
    case Elsewhere(n) => if Respectful(s, n) && ServerOk(n) then s.(hub := n) else s
  }

  function With(s: System, k: nat, r: Resident): System
    requires k < |s.residents|
  {
    s.(residents := s.residents[k := r])
  }

  ghost function SystemRun(s: System, events: seq<SystemEvent>): System
    decreases |events|
  {
    if events == [] then s else SystemRun(SystemStep(s, events[0]), events[1..])
  }

  ghost predicate SystemInv(s: System) {
    && ServerOk(s.hub) && Settlement(s)
    && SharedAppSets.Coherent(StoreOf(s.hub, s.held)) && 0 !in s.held
    && (forall k: nat | k < |s.residents| :: ResidentInv(s.residents[k], s.hub))
  }

  // Everybody but resident `k` is as before, and lives with the server as it is now.
  lemma RestKept(s: System, k: nat, r: Resident, n: Server)
    requires SystemInv(s) && k < |s.residents| && r.cfg == s.residents[k].cfg
    requires ResidentInv(r, n) && ServerOk(n) && SharedAppSets.Coherent(StoreOf(n, s.held))
    requires forall i: nat | i < |s.residents| && i != k :: Rely(s.residents[i].cfg.Me(), s.hub, n)
    ensures SystemInv(With(s, k, r).(hub := n))
  {
    hide ServerOk, Rely, ResidentInv, SharedAppSets.Coherent, Matches, ClusterLabels;
    var t := With(s, k, r).(hub := n);
    assert forall i: nat | i < |s.residents| :: t.residents[i].cfg == s.residents[i].cfg;
    forall i: nat | i < |t.residents| ensures ResidentInv(t.residents[i], n) {
      if i != k {
        OthersKeepResident(s.residents[i], s.hub, n);
      }
    }
  }

  lemma CallKeepsCoherent(s: System, k: nat)
    requires SystemInv(s) && k < |s.residents| && CanCall(s.residents[k], s.hub)
    ensures SharedAppSets.Coherent(StoreOf(AfterCall(s.residents[k], s.hub), s.held))
  {
    var r := s.residents[k];
    assert ResidentInv(r, s.hub);
    hide LifeInv, ServerOk, Legal, Apply, SharedAppSets.Coherent, SharedAppSets.Run, Settlement, ResidentInv;
    CallIsLegal(r, s.hub);
    CallIsStoreStep(r.cfg, PowersOf(r.work.removing), s.hub, s.held, r.work.calls[0].change);
    SharedAppSets.RunCoherent(StoreOf(s.hub, s.held), StoreActions(r.cfg.Me(), r.work.calls[0].change));
  }

  lemma NextIs(s: System, k: nat)
    requires k < |s.residents| && CanCall(s.residents[k], s.hub)
    ensures SystemStep(s, OfResident(k, Next)) ==
        With(s, k, Called(s.residents[k], s.hub)).(hub := AfterCall(s.residents[k], s.hub))
    ensures Called(s.residents[k], s.hub).cfg == s.residents[k].cfg
  {
    hide CanCall, AfterCall;
  }

  lemma OneOf(s: System, k: nat)
    requires SystemInv(s) && k < |s.residents|
    ensures ResidentInv(s.residents[k], s.hub)
  {
    hide ResidentInv, Settlement, SharedAppSets.Coherent, ServerOk;
  }

  lemma CallKeepsSystem(s: System, k: nat)
    requires SystemInv(s) && k < |s.residents| && CanCall(s.residents[k], s.hub)
    ensures SystemInv(SystemStep(s, OfResident(k, Next)))
  {
    hide SystemStep, SystemInv, Rely, ServerOk, AfterCall, Called, CanCall, SharedAppSets.Coherent, ResidentInv;
    OneOf(s, k);
    CallKeeps(s.residents[k], s.hub);
    CallKeepsCoherent(s, k);
    CallRespectsResidents(s, k);
    NextIs(s, k);
    RestKept(s, k, Called(s.residents[k], s.hub), AfterCall(s.residents[k], s.hub));
  }

  lemma CallRespectsResidents(s: System, k: nat)
    requires SystemInv(s) && k < |s.residents| && CanCall(s.residents[k], s.hub)
    ensures forall i: nat | i < |s.residents| && i != k ::
        Rely(s.residents[i].cfg.Me(), s.hub, AfterCall(s.residents[k], s.hub))
  {
    var r := s.residents[k];
    assert ResidentInv(r, s.hub);
    hide Rely, LifeInv, ServerOk, Legal, Apply, SharedAppSets.Coherent, Matches, ClusterLabels, ResidentInv;
    forall i: nat | i < |s.residents| && i != k ensures Rely(s.residents[i].cfg.Me(), s.hub, AfterCall(r, s.hub)) {
      CallIsLegal(r, s.hub);
      ChangeRespectsOthers(s.residents[i].cfg.Me(), r.cfg, PowersOf(r.work.removing), s.hub, r.work.calls[0].change);
    }
  }

  // What happens to resident `k` but leaves the server alone.
  lemma QuietKeepsSystem(s: System, k: nat, r: Resident)
    requires SystemInv(s) && k < |s.residents| && r.cfg == s.residents[k].cfg && ResidentInv(r, s.hub)
    ensures SystemInv(With(s, k, r).(hub := s.hub))
  {
    forall i: nat | i < |s.residents| ensures Rely(s.residents[i].cfg.Me(), s.hub, s.hub) {
      RelySelf(s.residents[i].cfg.Me(), s.hub);
    }
    hide Rely, ResidentInv, ServerOk, SharedAppSets.Coherent, Settlement;
    RestKept(s, k, r, s.hub);
  }

  lemma QuietKeepsResident(r: Resident, w: Server, a: Act)
    requires ResidentInv(r, w) && ServerOk(w) && !a.Next?
    ensures ResidentInv(ResidentStep(r, w, a).0, w) && ResidentStep(r, w, a).0.cfg == r.cfg
        && ResidentStep(r, w, a).1 == w
  {
    match a {
      case Begin(env, recorded) =>
        if CanStart(r) {
          StartKeeps(r, w, env, recorded);
        }
      case Finish =>
        if CanFinish(r) {
          FinishKeeps(r, w);
        }
      case Abort => SimpleKeeps(r, w);
      case RequestDeletion => SimpleKeeps(r, w);
      case Report(status) =>
        if r.end.Alive? && r.cfg.experimental && status != Unknown {
          ReportKeepsResident(r, w, status);
        }
      case Next =>
    }
    hide ResidentInv, ServerOk, PassCalls, DeletePassCalls, Runs.Step, Reported;
  }

  lemma ReportKeepsResident(r: Resident, w: Server, status: ConditionStatus)
    requires ResidentInv(r, w) && r.cfg.experimental && status != Unknown
    ensures ResidentInv(r.(stored := Reported(r.stored, status)), w)
  {
    ReportKeeps(r.cfg, LifeAt(r, w), status);
    hide LifeInv, Rely, Trace, Reported;
  }

  lemma SimpleKeeps(r: Resident, w: Server)
    requires ResidentInv(r, w)
    ensures ResidentInv(r.(work := Idle), w) && ResidentInv(r.(deleting := true), w)
  {
    hide HubInv, Rely, Trace, RestGone, AllGone, StoredInv, StoredBacked;
  }

  lemma ForeignKeepsSystem(s: System, a: SharedAppSets.Action)
    requires SystemInv(s) && Foreign(s, a)
    ensures SystemInv(SystemStep(s, Store(a)))
  {
    var n := SystemStep(s, Store(a));
    SharedAppSets.StepCoherent(StoreOf(s.hub, s.held), a);
    assert StoreOf(n.hub, n.held) == SharedAppSets.Step(StoreOf(s.hub, s.held), a);
    forall i: nat | i < |s.residents| ensures ResidentInv(s.residents[i], n.hub) {
      StoreStepIsTolerated(s.residents[i].cfg.Me(), s.hub, s.held, a);
      OthersKeepResident(s.residents[i], s.hub, n.hub);
    }
    StoreKeepsServer(s.hub, s.held, a);
    hide Rely, ResidentInv, SharedAppSets.Coherent, Matches, ClusterLabels, SharedAppSets.Edited, ServerOk;
  }

  lemma StoreKeepsServer(w: Server, held: map<SharedAppSets.Worker, SharedAppSets.Snapshot>, a: SharedAppSets.Action)
    requires ServerOk(w) && SharedAppSets.Coherent(StoreOf(w, held))
    ensures ServerOk(AfterStep(w, StoreOf(w, held), a))
  {
    hide DistinctClusters, DistinctSecrets, SharedAppSets.Edited;
  }

  lemma ElsewhereKeepsSystem(s: System, n: Server)
    requires SystemInv(s) && Respectful(s, n) && ServerOk(n)
    ensures SystemInv(s.(hub := n))
  {
    hide ServerOk, Rely, ResidentInv, Matches, ClusterLabels;
    forall i: nat | i < |s.residents| ensures ResidentInv(s.residents[i], n) {
      OthersKeepResident(s.residents[i], s.hub, n);
    }
    assert StoreOf(n, s.held) == StoreOf(s.hub, s.held);
  }

  lemma OwnEventKeeps(s: System, k: nat, a: Act)
    requires SystemInv(s) && k < |s.residents|
    ensures SystemInv(SystemStep(s, OfResident(k, a)))
  {
    var r := s.residents[k];
    assert ResidentInv(r, s.hub);
    hide ResidentInv, ServerOk, Settlement, SharedAppSets.Coherent;
    if !a.Next? {
      QuietKeepsResident(r, s.hub, a);
      hide ResidentStep;
      QuietKeepsSystem(s, k, ResidentStep(r, s.hub, a).0);
    } else if CanCall(r, s.hub) {
      CallKeepsSystem(s, k);
    } else {
      QuietKeepsSystem(s, k, r);
    }
  }

  lemma EventKeeps(s: System, e: SystemEvent)
    requires SystemInv(s)
    ensures SystemInv(SystemStep(s, e))
  {
    hide SystemInv, Foreign, Respectful, ServerOk;
    if e.Store? {
      if Foreign(s, e.action) {
        ForeignKeepsSystem(s, e.action);
      }
    } else if e.Elsewhere? {
      if Respectful(s, e.after) && ServerOk(e.after) {
        ElsewhereKeepsSystem(s, e.after);
      }
    } else if e.k < |s.residents| {
      OwnEventKeeps(s, e.k, e.act);
    }
  }

  lemma {:induction false} SystemRunKeeps(s: System, events: seq<SystemEvent>)
    requires SystemInv(s)
    ensures SystemInv(SystemRun(s, events))
    decreases |events|
  {
    hide SystemInv, SystemStep;
    if events != [] {
      EventKeeps(s, events[0]);
      SystemRunKeeps(SystemStep(s, events[0]), events[1..]);
    }
  }

  // Every resident has just been created, on a server that knows none of them.
  ghost predicate NewSettlement(s: System) {
    && ServerOk(s.hub) && Settlement(s) && s.held == map[]
    && forall k: nat | k < |s.residents| :: s.residents[k].work.Idle? && Newborn(s.residents[k].cfg, LifeOf(s, k))
  }

  lemma NewSettlementInv(s: System)
    requires NewSettlement(s)
    ensures SystemInv(s)
  {
    forall k: nat | k < |s.residents| ensures ResidentInv(s.residents[k], s.hub) {
      NewbornInv(s.residents[k].cfg, LifeOf(s, k));
    }
    hide Newborn, LifeInv, Settlement, DistinctClusters, DistinctSecrets;
  }

  /** However many instances share the server and however their calls, those of everybody
      else, failures, operator crashes, lost status writes and deletions interleave: no
      ApplicationSet lists a resident twice, and only its target sets list it at all; it
      never has two managed clusters; its recorded conditions form the chain, Ready only
      with the setup succeeded, the install backed by the kubeconfig secret; and once its
      finalizer is released with the template present nothing of it is left. */
  lemma EveryResidentEveryLife(s: System, events: seq<SystemEvent>, k: nat)
    requires NewSettlement(s) && k < |s.residents|
    ensures var n, cfg := SystemRun(s, events), s.residents[k].cfg;
      && |n.residents| == |s.residents| && n.residents[k].cfg == cfg
      && var l := LifeOf(n, k);
      && (forall m | m in n.hub.appSets :: |Own(cfg.Me(), n.hub.appSets[m].generators)| <= 1)
      && (forall m | m in n.hub.appSets && HasOwn(cfg.Me(), n.hub.appSets[m].generators) :: Target(cfg, m))
      && |MyClusters(cfg.Me(), n.hub.clusters)| <= 1
      && (l.stored.Saved? ==>
            var st := St(l.stored.status, n.hub);
            && Passes.Chain(st) && (st.status.phase == ReadyPhase ==> On(st, ClusterSetupSucceeded))
            && (!cfg.experimental && On(st, ClusterInstallSucceeded) ==> cfg.Me() in n.hub.kubeconfigs))
      && (l.end == Released(true) ==>
            && (forall m | m in n.hub.appSets :: !HasOwn(cfg.Me(), n.hub.appSets[m].generators))
            && MySecrets(cfg.Me(), n.hub.argoSecrets) == []
            && (cfg.enableManagedCluster ==> MyClusters(cfg.Me(), n.hub.clusters) == []))
  {
    NewSettlementInv(s);
    SystemRunKeeps(s, events);
    SameResidents(s, events, k);
    hide SystemRun, Settlement, SharedAppSets.Coherent, WorkInv, Passes.Chain, TwoValued, On, Own, HasOwn, MyClusters,
      MySecrets, Target;
    var n := SystemRun(s, events);
    assert ResidentInv(n.residents[k], n.hub);
    if n.residents[k].end == Released(true) {
      forall m | m in n.hub.appSets ensures !HasOwn(s.residents[k].cfg.Me(), n.hub.appSets[m].generators) {
        assert NotIn(s.residents[k].cfg, n.hub, m);
      }
    }
  }

  lemma {:induction false} SameResidents(s: System, events: seq<SystemEvent>, k: nat)
    requires k < |s.residents|
    ensures var n := SystemRun(s, events); |n.residents| == |s.residents| && n.residents[k].cfg == s.residents[k].cfg
    decreases |events|
  {
    if events != [] {
      SameResidentsStep(s, events[0], k);
      SameResidents(SystemStep(s, events[0]), events[1..], k);
    }
    hide SystemStep;
  }

  lemma SameResidentsStep(s: System, e: SystemEvent, k: nat)
    requires k < |s.residents|
    ensures var n := SystemStep(s, e); |n.residents| == |s.residents| && n.residents[k].cfg == s.residents[k].cfg
  {
    hide Runs.Step, SharedAppSets.Step, Foreign, Respectful, ServerOk, Apply, PassCalls, DeletePassCalls;
  }

  // What is recorded of a resident is never taken back, whatever happens to it.
  lemma ResidentAdvances(r: Resident, w: Server, a: Act)
    requires ResidentInv(r, w)
    ensures StoredAdvances(r.stored, ResidentStep(r, w, a).0.stored, w)
  {
    AdvancesSelf(r.stored, w);
    if a.Finish? && CanFinish(r) {
      StoredAdvancesAnywhere(r.work.began, r.work.next.stored, r.work.next.hub, w);
    } else if a.Report? && r.cfg.experimental && a.status != Unknown {
      ReportKeeps(r.cfg, LifeAt(r, w), a.status);
    }
    hide LifeInv, Rely, Trace, StoredAdvances, Reported, PassCalls, DeletePassCalls, Runs.Step, Apply;
  }

  lemma EventAdvances(s: System, e: SystemEvent, k: nat)
    requires SystemInv(s) && k < |s.residents|
    ensures k < |SystemStep(s, e).residents|
    ensures StoredAdvances(s.residents[k].stored, SystemStep(s, e).residents[k].stored, s.hub)
  {
    hide ResidentInv, ResidentStep, StoredAdvances, SystemInv, Foreign, Respectful, ServerOk, SharedAppSets.Step;
    OneOf(s, k);
    AdvancesSelf(s.residents[k].stored, s.hub);
    if e.OfResident? {
      ResidentAdvances(s.residents[k], s.hub, e.act);
    }
  }

  lemma {:induction false} RunAdvances(s: System, events: seq<SystemEvent>, k: nat)
    requires SystemInv(s) && k < |s.residents|
    ensures k < |SystemRun(s, events).residents|
    ensures StoredAdvances(s.residents[k].stored, SystemRun(s, events).residents[k].stored, s.hub)
    decreases |events|
  {
    hide SystemInv, SystemStep, StoredAdvances;
    if events == [] {
      AdvancesSelf(s.residents[k].stored, s.hub);
    } else {
      var n := SystemStep(s, events[0]);
      EventKeeps(s, events[0]);
      EventAdvances(s, events[0], k);
      RunAdvances(n, events[1..], k);
      AdvancesOn(s.residents[k].stored, n.residents[k].stored, SystemRun(s, events).residents[k].stored, s.hub, n.hub);
    }
  }

  /** Whatever a resident has recorded by some moment of the run it keeps at every later one:
      the six latched conditions, the API server URL, the first login time, the setup
      secrets. */
  lemma NothingTakenBack(s: System, before: seq<SystemEvent>, after: seq<SystemEvent>, k: nat)
    requires NewSettlement(s) && k < |s.residents|
    ensures var l, n := SystemRun(s, before), SystemRun(s, before + after);
      && k < |l.residents| && k < |n.residents|
      && StoredAdvances(l.residents[k].stored, n.residents[k].stored, l.hub)
  {
    hide SystemRun, StoredAdvances, SystemInv, NewSettlement;
    NewSettlementInv(s);
    SystemRunKeeps(s, before);
    SameResidents(s, before, k);
    RunAdvances(SystemRun(s, before), after, k);
    RunOn(s, before, after);
  }

  lemma {:induction false} RunOn(s: System, a: seq<SystemEvent>, b: seq<SystemEvent>)
    ensures SystemRun(s, a + b) == SystemRun(SystemRun(s, a), b)
    decreases |a|
  {
    hide SystemStep;
    if a == [] {
      assert a + b == b;
    } else {
      assert (a + b)[0] == a[0] && (a + b)[1..] == a[1..] + b;
      RunOn(SystemStep(s, a[0]), a[1..], b);
    }
  }

  /** Nothing that happens between two calls of a pass is more than the pass is proved
      against: an environment that foretells the server as it is will be believed. */
  lemma AnyInterleavingIsForetold(s: System, events: seq<SystemEvent>, k: nat, o: Outcome)
    requires NewSettlement(s) && k < |s.residents|
    ensures var n := SystemRun(s, events);
      && k < |n.residents|
      && var r := n.residents[k];
      (r.work.Busy? ==> At(r.cfg.Me(), r.work.mark, Reply(o, Some(n.hub))) == n.hub)
  {
    NewSettlementInv(s);
    SystemRunKeeps(s, events);
    SameResidents(s, events, k);
    var n := SystemRun(s, events);
    assert ResidentInv(n.residents[k], n.hub);
    hide SystemRun, Settlement, SharedAppSets.Coherent, LifeInv, Rely, Trace;
  }

  // -------- the ApplicationSets over a whole run --------

  // What an event comes to on the shared sets.
  ghost function EventActions(s: System, e: SystemEvent): seq<SharedAppSets.Action> {
    match e
    case OfResident(k, act) =>
      if k < |s.residents| && act.Next? && CanCall(s.residents[k], s.hub) then
        StoreActions(s.residents[k].cfg.Me(), s.residents[k].work.calls[0].change)
      else []
    case Store(a) => if Foreign(s, a) then [a] else []
    case _ => []
  }

  // The run as the shared store sees it.
  ghost function StoreHistory(s: System, events: seq<SystemEvent>): seq<SharedAppSets.Action>
    decreases |events|
  {
    if events == [] then [] else EventActions(s, events[0]) + StoreHistory(SystemStep(s, events[0]), events[1..])
  }

  lemma EventIsStoreStep(s: System, e: SystemEvent)
    requires SystemInv(s)
    ensures var n := SystemStep(s, e);
      StoreOf(n.hub, n.held) == SharedAppSets.Run(StoreOf(s.hub, s.held), EventActions(s, e))
  {
    hide ServerOk, LifeInv, SharedAppSets.Coherent, Settlement, SharedAppSets.Step, Rely;
    match e {
      case OfResident(k, act) =>
        if k < |s.residents| && act.Next? && CanCall(s.residents[k], s.hub) {
          var r := s.residents[k];
          assert ResidentInv(r, s.hub);
          CallIsStoreStep(r.cfg, PowersOf(r.work.removing), s.hub, s.held, r.work.calls[0].change);
        }
      case Store(a) =>
        if Foreign(s, a) {
          var t := SharedAppSets.Step(StoreOf(s.hub, s.held), a);
          assert [a][1..] == [] && SharedAppSets.Run(StoreOf(s.hub, s.held), [a]) == SharedAppSets.Run(t, []);
        }
      case _ =>
    }
  }

  /** To the ApplicationSets a run of the whole system, passes and delete passes and all, is
      a run of the shared store, in which resident `k` acts under its own name alone. */
  lemma {:induction false} RunIsStoreRun(s: System, events: seq<SystemEvent>)
    requires SystemInv(s)
    ensures var n := SystemRun(s, events);
      StoreOf(n.hub, n.held) == SharedAppSets.Run(StoreOf(s.hub, s.held), StoreHistory(s, events))
    decreases |events|
  {
    hide SystemInv, SystemStep, EventActions;
    if events != [] {
      var n := SystemStep(s, events[0]);
      EventKeeps(s, events[0]);
      EventIsStoreStep(s, events[0]);
      RunIsStoreRun(n, events[1..]);
      SharedAppSets.RunAppend(StoreOf(s.hub, s.held), EventActions(s, events[0]), StoreHistory(n, events[1..]));
    }
  }

  /** Conservation: when a resident's finalizer goes, its template still there, every
      ApplicationSet holds exactly the generators, in the same order, that it would hold
      had everybody else taken the same steps and this instance never existed. */
  lemma GoneAsIfNeverThere(s: System, events: seq<SystemEvent>, k: nat)
    requires NewSettlement(s) && k < |s.residents|
    ensures var n, me, start := SystemRun(s, events), s.residents[k].cfg.Me(), StoreOf(s.hub, s.held);
      var others := SharedAppSets.ErasedRun(me, start, StoreHistory(s, events));
      var world := SharedAppSets.Run(start, others);
      && (forall a | a in others :: !SharedAppSets.ActsFor(me, a))
      && k < |n.residents|
      && (n.residents[k].end == Released(true) ==>
            && n.hub.appSets.Keys == world.sets.Keys
            && forall m | m in n.hub.appSets :: n.hub.appSets[m].generators == world.sets[m].generators)
  {
    NewSettlementInv(s);
    RunIsStoreRun(s, events);
    EveryResidentEveryLife(s, events, k);
    hide SystemRun, StoreHistory, SharedAppSets.Run, SharedAppSets.ErasedRun, Settlement, SharedAppSets.ActsFor,
      LifeInv, Passes.Chain, Target;
    var n, me, start := SystemRun(s, events), s.residents[k].cfg.Me(), StoreOf(s.hub, s.held);
    forall m | m in s.hub.appSets ensures !HasOwn(me, s.hub.appSets[m].generators) {
      assert Newborn(s.residents[k].cfg, LifeOf(s, k));
      assert NotIn(s.residents[k].cfg, s.hub, m);
    }
    hide Newborn;
    var world := SharedAppSets.Run(start, SharedAppSets.ErasedRun(me, start, StoreHistory(s, events)));
    forall m
      ensures m in n.hub.appSets <==> m in world.sets
      ensures m in n.hub.appSets && !HasOwn(me, n.hub.appSets[m].generators) ==>
          n.hub.appSets[m].generators == world.sets[m].generators
    {
      SharedAppSets.AsIfNeverThere(me, start, StoreHistory(s, events), m);
    }
    SharedAppSets.AsIfNeverThere(me, start, StoreHistory(s, events), "");
  }

  /** At every moment of every run the generators without a list, and those of everybody
      nobody acted for, are what they were and in the same order. */
  lemma OthersGeneratorsUntouched(s: System, events: seq<SystemEvent>, keys: set<Key>, m: string)
    requires NewSettlement(s) && m in s.hub.appSets
    requires SharedAppSets.Actors(StoreHistory(s, events)) <= keys
    requires forall a | a in StoreHistory(s, events) :: a != SharedAppSets.RemoveSet(m)
    ensures var n := SystemRun(s, events);
      && m in n.hub.appSets
      && SharedAppSets.Bystanders(keys, n.hub.appSets[m].generators) ==
          SharedAppSets.Bystanders(keys, s.hub.appSets[m].generators)
  {
    NewSettlementInv(s);
    RunIsStoreRun(s, events);
    hide SystemRun, StoreHistory, SharedAppSets.Run, Settlement, NewSettlement;
    SharedAppSets.BystandersUntouched(StoreOf(s.hub, s.held), StoreHistory(s, events), keys, m);
  }
}
