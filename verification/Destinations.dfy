/** Where the applications of an instance are sent: what the generators that stand in the
    ApplicationSets for it say, over whole lives. */
module Destinations {
  import opened Generators
  import opened Hub
  import opened Lifecycle
  import opened Passes
  import opened Calls
  import opened Deletion
  import opened DeletionCalls
  import opened Runs

  // The generator sends its application where set `m` is meant to go.
  ghost predicate Points(cfg: Config, w: Server, m: string, g: Generator) {
    && g.List? && g.template.instanceNamespace == cfg.Me().namespace
    && exists url, isDay2 :: MeantAs(cfg, w, m, url, isDay2) && Directed(cfg, m, g, url, isDay2)
  }

  predicate Directed(cfg: Config, m: string, g: Generator, url: string, isDay2: bool)
    requires g.List?
  {
    && g.template.server == url && g.template.setupLabel == isDay2
    && g.template.name == if isDay2 then cfg.instance.uid + "-" + m else cfg.instance.uid
  }

  ghost predicate SetPlaced(cfg: Config, w: Server, m: string) {
    m in w.appSets ==> forall g | g in Own(cfg.Me(), w.appSets[m].generators) :: Points(cfg, w, m, g)
  }

  ghost predicate Placed(cfg: Config, w: Server) {
    forall m :: SetPlaced(cfg, w, m)
  }

  lemma PointsOn(cfg: Config, w: Server, n: Server, m: string, g: Generator)
    requires Points(cfg, w, m, g)
    requires cfg.Me() in w.kubeconfigs ==>
        cfg.Me() in n.kubeconfigs && n.kubeconfigs[cfg.Me()] == w.kubeconfigs[cfg.Me()]
    ensures Points(cfg, n, m, g)
  {
    var url, isDay2 :| MeantAs(cfg, w, m, url, isDay2) && Directed(cfg, m, g, url, isDay2);
    assert MeantAs(cfg, n, m, url, isDay2);
  }

  // Nobody writes a generator of the instance but its own passes.
  lemma RelyPlaced(cfg: Config, w: Server, n: Server)
    requires Placed(cfg, w) && Rely(cfg.Me(), w, n)
    ensures Placed(cfg, n)
  {
    forall m ensures SetPlaced(cfg, n, m) {
      if m in n.appSets && Own(cfg.Me(), n.appSets[m].generators) != [] {
        assert SetPlaced(cfg, w, m);
        forall g | g in Own(cfg.Me(), n.appSets[m].generators) ensures Points(cfg, n, m, g) {
          PointsOn(cfg, w, n, m, g);
        }
      }
    }
    hide MyClusters, MySecrets, ServerOk, Points, Own;
  }

  lemma FitsPoints(cfg: Config, w: Server, n: Server, m: string, t: Template, g: Generator)
    requires Fits(cfg, w, m, t, g) && n.kubeconfigs == w.kubeconfigs
    ensures Points(cfg, n, m, g)
  {
    hide HelmOf;
    var url, isDay2 :| MeantAs(cfg, w, m, url, isDay2) && Suits(cfg.instance, m, t, url, isDay2, g);
    assert MeantAs(cfg, n, m, url, isDay2) && Directed(cfg, m, g, url, isDay2);
  }

  // The set that a call writes, and the others.
  lemma JoinPlaced(cfg: Config, may: Powers, w: Server, name: string, g: Generator)
    requires Placed(cfg, w) && Legal(cfg, may, w, Join(name, g))
    ensures SetPlaced(cfg, Apply(cfg, w, Join(name, g)), name)
  {
    hide Own, HasOwn, Points, Fits, Owns, Target;
    var n, me := Apply(cfg, w, Join(name, g)), cfg.Me();
    FitsPoints(cfg, w, n, name, w.appSets[name].template, g);
    OwnAppend(me, w.appSets[name].generators, [g]);
    OwnOne(me, g);
    assert SetPlaced(cfg, w, name);
    forall x | x in Own(me, n.appSets[name].generators) ensures Points(cfg, n, name, x) {
      if x in Own(me, w.appSets[name].generators) {
        PointsOn(cfg, w, n, name, x);
      }
    }
  }

  lemma OwnOne(me: Key, g: Generator)
    requires Owns(me, g)
    ensures Own(me, [g]) == [g]
  {
    assert [g][1..] == [];
  }

  lemma ChangePlaced(cfg: Config, may: Powers, w: Server, x: Change)
    requires Placed(cfg, w) && Legal(cfg, may, w, x)
    ensures Placed(cfg, Apply(cfg, w, x))
  {
    hide Points, Own, Fits, Target;
    var n := Apply(cfg, w, x);
    forall m ensures SetPlaced(cfg, n, m) {
      assert SetPlaced(cfg, w, m);
      if x.Join? && x.name == m {
        JoinPlaced(cfg, may, w, m, x.generator);
      } else if x.Leave? && x.name == m {
        assert Own(cfg.Me(), n.appSets[m].generators) == [];
      } else if m in n.appSets {
        assert n.appSets[m] == w.appSets[m];
        forall g | g in Own(cfg.Me(), n.appSets[m].generators) ensures Points(cfg, n, m, g) {
          PointsOn(cfg, w, n, m, g);
        }
      }
    }
  }

  lemma {:induction false} TracePlaced(cfg: Config, may: Powers, w: Server, calls: seq<Call>, n: Server)
    requires Placed(cfg, w) && Trace(cfg, may, w, calls, n)
    ensures Placed(cfg, n)
    decreases |calls|
  {
    hide Placed, Rely, Legal, Apply;
    if calls != [] {
      RelyPlaced(cfg, w, calls[0].before);
      ChangePlaced(cfg, may, calls[0].before, calls[0].change);
      TracePlaced(cfg, may, Apply(cfg, calls[0].before, calls[0].change), calls[1..], n);
    }
  }

  lemma StepPlaced(cfg: Config, l: Life, e: Event)
    requires LifeInv(cfg, l) && Placed(cfg, l.hub)
    ensures Placed(cfg, Step(cfg, l, e).hub)
  {
    assert ServerOk(l.hub);
    hide LifeInv, Placed, Pass, DeletePass, PassCalls, DeletePassCalls, Rely, Trace, ServerOk;
    match e
    case Others(n) =>
      if Rely(cfg.Me(), l.hub, n) {
        RelyPlaced(cfg, l.hub, n);
      }
    case Reconcile(env, recorded) =>
      if l.end.Alive? && l.deleting {
        DeletePassLeads(cfg, env, l.hub);
        TracePlaced(cfg, Deleting, l.hub, DeletePassCalls(cfg, env, l.hub), DeletePass(cfg, env, l.hub).0);
      } else if l.end.Alive? {
        PassLeads(cfg, env, l.stored, l.hub);
        TracePlaced(cfg, PASS, l.hub, PassCalls(cfg, env, l.stored, l.hub), Pass(cfg, env, l.stored, l.hub).st.hub);
      }
    case _ =>
  }

  lemma {:induction false} RunPlaced(cfg: Config, l: Life, events: seq<Event>)
    requires LifeInv(cfg, l) && Placed(cfg, l.hub)
    ensures Placed(cfg, Run(cfg, l, events).hub)
    decreases |events|
  {
    hide LifeInv, Placed, Step;
    if events != [] {
      StepKeeps(cfg, l, events[0]);
      StepPlaced(cfg, l, events[0]);
      RunPlaced(cfg, Step(cfg, l, events[0]), events[1..]);
    }
  }

  /** In every life, whatever fails and whatever others do: a generator of the instance in
      an ApplicationSet sends its application to the hub if the set is the instance's
      cluster definition, and otherwise, as a setup, to the API server that the instance's
      own kubeconfig names; each bears a name of its own, and the instance's namespace. */
  lemma EveryGeneratorPoints(cfg: Config, born: Life, events: seq<Event>, m: string, g: Generator)
    requires Newborn(cfg, born)
    requires m in Run(cfg, born, events).hub.appSets
    requires g in Own(cfg.Me(), Run(cfg, born, events).hub.appSets[m].generators)
    ensures var w := Run(cfg, born, events).hub;
      && g.List? && g.template.instanceNamespace == cfg.instance.key.namespace
      && if g.template.setupLabel then
           && cfg.setups != [] && m == cfg.setups[|cfg.setups| - 1]
           && cfg.Me() in w.kubeconfigs && g.template.server == w.kubeconfigs[cfg.Me()]
           && g.template.name == cfg.instance.uid + "-" + m
         else
           && cfg.secretRef.None? && m == cfg.definition
           && g.template.server == "https://kubernetes.default.svc" && g.template.name == cfg.instance.uid
  {
    NewbornInv(cfg, born);
    forall m ensures SetPlaced(cfg, born.hub, m) {
      assert NotIn(cfg, born.hub, m);
    }
    hide Run, LifeInv, Newborn, Own;
    RunPlaced(cfg, born, events);
    assert SetPlaced(cfg, Run(cfg, born, events).hub, m);
  }
}
