/** Many instances on one server: whatever call one of them makes, every other can live with. */
module Coexistence {
  import opened Generators
  import opened Conditions
  import opened Hub
  import opened Lifecycle
  import opened Passes
  import opened Calls
  import opened Deletion
  import opened DeletionCalls
  import SharedAppSets

  // -------- one call --------

  lemma PutRespects(i: Key, w: Server, name: string, gens: seq<Generator>)
    requires ServerOk(w) && name in w.appSets && Own(i, gens) == Own(i, w.appSets[name].generators)
    ensures Rely(i, w, WithGenerators(w, name, gens))
  {
    hide Own, MyClusters, MySecrets, DistinctSecrets, DistinctClusters;
  }

  lemma JoinRespects(i: Key, cfg: Config, may: Powers, w: Server, name: string, g: Generator)
    requires ServerOk(w) && Legal(cfg, may, w, Join(name, g)) && i != cfg.Me()
    ensures Rely(i, w, Apply(cfg, w, Join(name, g)))
  {
    OwnAppend(i, w.appSets[name].generators, [g]);
    assert Own(i, [g]) == [];
    hide Own, Rely, ServerOk;
    PutRespects(i, w, name, w.appSets[name].generators + [g]);
  }

  lemma LeaveRespects(i: Key, cfg: Config, w: Server, name: string)
    requires ServerOk(w) && name in w.appSets && i != cfg.Me()
    ensures Rely(i, w, Apply(cfg, w, Leave(name)))
  {
    OwnUnaffectedByOthers(cfg.Me(), i, w.appSets[name].generators);
    hide Own, Rely, ServerOk, Without;
    PutRespects(i, w, name, Without(cfg.Me(), w.appSets[name].generators));
  }

  /** The registration of one instance is harmless to another exactly when the new cluster
      does not carry the other's two labels. The template's labels, which are merged in
      last, can give it those. */
  lemma RegistrationRespectsExactlyWhen(i: Key, cfg: Config, may: Powers, w: Server, name: string)
    requires ServerOk(w) && Legal(cfg, may, w, NewCluster(name))
    ensures Rely(i, w, Apply(cfg, w, NewCluster(name))) <==> !Matches(i, ClusterLabels(cfg))
  {
    var mc := ManagedCluster(name, ClusterLabels(cfg));
    MyClustersAppend(i, w.clusters, [mc]);
    assert MyClusters(i, [mc]) == if Matches(i, mc.labels) then [mc] else [];
    ChangeKeepsServer(cfg, may, w, NewCluster(name));
    hide Own, MyClusters, MySecrets, ServerOk, FirstCluster, Matches, ClusterLabels;
  }

  lemma NewArgoSecretRespects(i: Key, cfg: Config, may: Powers, w: Server, name: string)
    requires ServerOk(w) && Legal(cfg, may, w, NewArgoSecret(name)) && i != cfg.Me()
    ensures Rely(i, w, Apply(cfg, w, NewArgoSecret(name)))
  {
    var s := ArgoSecret(name, Some(cfg.Me()));
    MySecretsAppend(i, w.argoSecrets, [s]);
    assert MySecrets(i, [s]) == [];
    ChangeKeepsServer(cfg, may, w, NewArgoSecret(name));
    hide Own, MyClusters, MySecrets, ServerOk;
  }

  lemma {:induction false} NothingToRemove(ss: seq<ArgoSecret>, name: string)
    requires forall a | 0 <= a < |ss| :: ss[a].name != name
    ensures WithoutSecret(ss, name) == ss
  {
    if ss != [] {
      NothingToRemove(ss[1..], name);
    }
  }

  // Where names are distinct, removing one's own secret removes nobody else's.
  lemma {:induction false} WithoutSecretOthers(i: Key, ss: seq<ArgoSecret>, x: ArgoSecret)
    requires DistinctSecrets(ss) && x in ss && x.owner != Some(i)
    ensures MySecrets(i, WithoutSecret(ss, x.name)) == MySecrets(i, ss)
  {
    var rest := ss[1..];
    TailDistinct(ss, []);
    if ss[0] == x {
      forall a | 0 <= a < |rest| ensures rest[a].name != x.name {
        HeadSecretDiffers(ss, rest[a]);
      }
      NothingToRemove(rest, x.name);
      assert WithoutSecret(ss, x.name) == rest;
    } else {
      HeadSecretDiffers(ss, x);
      WithoutSecretOthers(i, rest, x);
      assert WithoutSecret(ss, x.name) == [ss[0]] + WithoutSecret(rest, x.name);
      SameHeadSecret(i, ss[0], WithoutSecret(rest, x.name), rest);
      assert [ss[0]] + rest == ss;
    }
    hide DistinctSecrets, MySecrets;
  }

  lemma SameHeadSecret(i: Key, h: ArgoSecret, a: seq<ArgoSecret>, b: seq<ArgoSecret>)
    requires MySecrets(i, a) == MySecrets(i, b)
    ensures MySecrets(i, [h] + a) == MySecrets(i, [h] + b)
  {
    hide MySecrets;
    MySecretsAppend(i, [h], a);
    MySecretsAppend(i, [h], b);
  }

  lemma SecretRemovalRespects(i: Key, cfg: Config, w: Server, x: ArgoSecret)
    requires ServerOk(w) && Legal(cfg, Deleting, w, DropArgoSecret(x)) && i != cfg.Me()
    ensures Rely(i, w, Apply(cfg, w, DropArgoSecret(x)))
  {
    MineIsThere(cfg.Me(), w.argoSecrets, x);
    WithoutSecretOthers(i, w.argoSecrets, x);
    ChangeKeepsServer(cfg, Deleting, w, DropArgoSecret(x));
    hide Own, MyClusters, MySecrets, WithoutSecret, DistinctClusters, DistinctSecrets;
  }

  // A cluster goes by its name; should it be another instance's by now, then that one has
  // lost a cluster, which is something it is proved against.
  lemma ClusterRemovalRespects(i: Key, cfg: Config, w: Server, x: ManagedCluster)
    requires ServerOk(w)
    ensures Rely(i, w, Apply(cfg, w, DropCluster(x)))
  {
    WithoutClusterMine(i, w.clusters, x.name);
    WithoutClusterDistinct(w.clusters, x.name);
    hide Own, MyClusters, MySecrets, WithoutCluster, DistinctClusters, DistinctSecrets;
  }

  /** Any call that a pass or a delete pass of one instance makes, on any server, is one
      that every other instance is proved against, unless it registers a cluster under the
      other's labels. */
  lemma ChangeRespectsOthers(i: Key, cfg: Config, may: Powers, w: Server, x: Change)
    requires ServerOk(w) && Legal(cfg, may, w, x) && i != cfg.Me()
    requires cfg.Registers() ==> !Matches(i, ClusterLabels(cfg))
    ensures Rely(i, w, Apply(cfg, w, x))
  {
    match x {
      case Join(name, g) => JoinRespects(i, cfg, may, w, name, g);
      case Leave(name) => LeaveRespects(i, cfg, w, name);
      case NewCluster(name) => RegistrationRespectsExactlyWhen(i, cfg, may, w, name);
      case NewArgoSecret(name) => NewArgoSecretRespects(i, cfg, may, w, name);
      case DropArgoSecret(s) => SecretRemovalRespects(i, cfg, w, s);
      case DropCluster(mc) => ClusterRemovalRespects(i, cfg, w, mc);
      case _ =>
    }
    hide Own, MyClusters, MySecrets, DistinctClusters, DistinctSecrets, Matches, ClusterLabels, Owns, HasOwn, Target,
      FirstCluster;
  }

  // -------- whole passes --------

  // Between the calls, too, only what `i` can live with happens.
  ghost predicate Meanwhile(i: Key, cfg: Config, w: Server, calls: seq<Call>)
    decreases |calls|
  {
    calls != [] ==>
      Rely(i, w, calls[0].before) && Meanwhile(i, cfg, Apply(cfg, calls[0].before, calls[0].change), calls[1..])
  }

  lemma {:induction false} TraceRespectsOthers(i: Key, cfg: Config, may: Powers, w: Server, calls: seq<Call>, n: Server)
    requires ServerOk(w) && Trace(cfg, may, w, calls, n) && Meanwhile(i, cfg, w, calls) && i != cfg.Me()
    requires cfg.Registers() ==> !Matches(i, ClusterLabels(cfg))
    ensures Rely(i, w, n)
    decreases |calls|
  {
    hide ServerOk, Own, MyClusters, MySecrets, Legal, Apply, Matches, ClusterLabels;
    if calls == [] {
      RelySelf(i, w);
    } else {
      var b := calls[0].before;
      var m := Apply(cfg, b, calls[0].change);
      ChangeRespectsOthers(i, cfg, may, b, calls[0].change);
      RelyOn(i, w, b, m);
      TraceRespectsOthers(i, cfg, may, m, calls[1..], n);
      RelyOn(i, w, m, n);
    }
  }

  /** A whole pass respects another instance as soon as what happens between its calls does. */
  lemma PassRespectsOthers(i: Key, cfg: Config, env: Env, s: Stored, w: Server)
    requires ServerOk(w) && Meanwhile(i, cfg, w, PassCalls(cfg, env, s, w)) && i != cfg.Me()
    requires cfg.Registers() ==> !Matches(i, ClusterLabels(cfg))
    ensures Rely(i, w, Pass(cfg, env, s, w).st.hub)
  {
    hide ServerOk, Rely, Trace, Meanwhile, Pass, PassCalls, Matches, ClusterLabels;
    PassLeads(cfg, env, s, w);
    TraceRespectsOthers(i, cfg, PASS, w, PassCalls(cfg, env, s, w), Pass(cfg, env, s, w).st.hub);
  }

  lemma DeletePassRespectsOthers(i: Key, cfg: Config, env: Env, w: Server)
    requires ServerOk(w) && Meanwhile(i, cfg, w, DeletePassCalls(cfg, env, w)) && i != cfg.Me()
    requires cfg.Registers() ==> !Matches(i, ClusterLabels(cfg))
    ensures Rely(i, w, DeletePass(cfg, env, w).0)
  {
    hide ServerOk, Rely, Trace, Meanwhile, DeletePass, DeletePassCalls, Matches, ClusterLabels;
    DeletePassLeads(cfg, env, w);
    TraceRespectsOthers(i, cfg, Deleting, w, DeletePassCalls(cfg, env, w), DeletePass(cfg, env, w).0);
  }

  // -------- the shared ApplicationSets --------

  // The ApplicationSets of the server, with the copies that other workers hold.
  function StoreOf(w: Server, held: map<SharedAppSets.Worker, SharedAppSets.Snapshot>): SharedAppSets.State {
    SharedAppSets.State(w.rv, w.appSets, held)
  }

  // A step of the versioned store, as a change of the server.
  function AfterStep(w: Server, s: SharedAppSets.State, a: SharedAppSets.Action): Server {
    var n := SharedAppSets.Step(s, a);
    w.(rv := n.rv, appSets := n.sets)
  }

  lemma EditKeepsOwn(i: Key, e: SharedAppSets.Edit, gens: seq<Generator>)
    requires e.Retemplate? || e.key != i
    ensures Own(i, SharedAppSets.Edited(e, gens)) == Own(i, gens)
  {
    match e
    case Join(k, t) =>
      OwnAppend(i, gens, [List(k.name, k.namespace, t)]);
      assert Own(i, [List(k.name, k.namespace, t)]) == [];
    case Leave(k) => OwnUnaffectedByOthers(k, i, gens);
    case Retemplate(_) =>
  }

  // A new set lists nobody.
  lemma NobodysSet(i: Key)
    ensures Own(i, [Opaque(0)]) == []
  {}

  /** Every step of the shared store that is not the instance's own, whoever takes it and
      however stale its copy, the template reconciler's included, is an interference the
      instance's passes are proved against. */
  lemma StoreStepIsTolerated(i: Key, w: Server, held: map<SharedAppSets.Worker, SharedAppSets.Snapshot>,
      a: SharedAppSets.Action)
    requires ServerOk(w) && SharedAppSets.Coherent(StoreOf(w, held)) && !SharedAppSets.ActsFor(i, a)
    ensures Rely(i, w, AfterStep(w, StoreOf(w, held), a))
  {
    hide Own, MyClusters, MySecrets, SharedAppSets.Edited, DistinctClusters, DistinctSecrets;
    var s := StoreOf(w, held);
    NobodysSet(i);
    if a.Put? && a.worker in s.held {
      EditKeepsOwn(i, a.edit, s.held[a.worker].copy.generators);
    }
  }

  // What a call of an instance does to the store: read the set, edit it, write it back.
  function StoreActions(me: Key, x: Change): seq<SharedAppSets.Action> {
    match x
    case Join(name, g) =>
      if g.Opaque? then []
      else [SharedAppSets.Get(0, name), SharedAppSets.Put(0, SharedAppSets.Join(me, g.template), true, true),
        SharedAppSets.Abandon(0)]
    case Leave(name) =>
      [SharedAppSets.Get(0, name), SharedAppSets.Put(0, SharedAppSets.Leave(me), true, true), SharedAppSets.Abandon(0)]
    case _ => []
  }

  lemma RunOfThree(s: SharedAppSets.State, a: SharedAppSets.Action, b: SharedAppSets.Action, c: SharedAppSets.Action)
    ensures SharedAppSets.Run(s, [a, b, c]) == SharedAppSets.Step(SharedAppSets.Step(SharedAppSets.Step(s, a), b), c)
  {
    hide SharedAppSets.Step;
    var t := SharedAppSets.Step(s, a);
    assert [a, b, c][1..] == [b, c] && [b, c][1..] == [c] && [c][1..] == [];
    assert SharedAppSets.Run(t, [b, c]) == SharedAppSets.Run(SharedAppSets.Step(t, b), [c]);
    assert SharedAppSets.Run(SharedAppSets.Step(t, b), [c]) ==
      SharedAppSets.Run(SharedAppSets.Step(SharedAppSets.Step(t, b), c), []);
  }

  lemma EditAsStore(w: Server, held: map<SharedAppSets.Worker, SharedAppSets.Snapshot>, name: string,
      e: SharedAppSets.Edit)
    requires 0 !in held && name in w.appSets && !e.Retemplate?
    requires !SharedAppSets.NoRequest(e, w.appSets[name].generators)
    ensures SharedAppSets.Run(StoreOf(w, held),
              [SharedAppSets.Get(0, name), SharedAppSets.Put(0, e, true, true), SharedAppSets.Abandon(0)])
      == StoreOf(WithGenerators(w, name, SharedAppSets.Edited(e, w.appSets[name].generators)), held)
  {
    hide SharedAppSets.Edited;
    RunOfThree(StoreOf(w, held), SharedAppSets.Get(0, name), SharedAppSets.Put(0, e, true, true),
      SharedAppSets.Abandon(0));
    var s1 := SharedAppSets.Step(StoreOf(w, held), SharedAppSets.Get(0, name));
    var s2 := SharedAppSets.Step(s1, SharedAppSets.Put(0, e, true, true));
    assert s2.held - {0} == held;
  }

  /** To the ApplicationSets a call of an instance is a step of the shared store that acts
      for that instance, or nothing. */
  lemma CallIsStoreStep(cfg: Config, may: Powers, w: Server, held: map<SharedAppSets.Worker, SharedAppSets.Snapshot>,
      x: Change)
    requires 0 !in held && Legal(cfg, may, w, x)
    ensures StoreOf(Apply(cfg, w, x), held) == SharedAppSets.Run(StoreOf(w, held), StoreActions(cfg.Me(), x))
    ensures forall a | a in StoreActions(cfg.Me(), x) && a.Put? :: SharedAppSets.ActsFor(cfg.Me(), a)
  {
    match x {
      case Join(name, g) => EditAsStore(w, held, name, SharedAppSets.Join(cfg.Me(), g.template));
      case Leave(name) => EditAsStore(w, held, name, SharedAppSets.Leave(cfg.Me()));
      case _ =>
    }
    hide SharedAppSets.Step, Without, MyClusters, MySecrets, FirstCluster, Target, NameTaken, SecretNamed,
      ClusterLabels;
  }
}
