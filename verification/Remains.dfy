/** What an instance leaves behind, or never gets, over its whole life.

    Nobody goes back to it: neither to the generators of an instance that was released while it
    was listed, nor to the argo secret of one whose secret's name was taken. */
module Remains {
  import opened Generators
  import opened Conditions
  import opened Hub
  import opened Lifecycle
  import opened Passes
  import opened Calls
  import opened HubInvariants
  import opened Deletion
  import opened Runs
  import opened Convergence
  import opened Release
  import opened Forecast

  // -------- generators --------

  /** In any life, whatever fails in it: when a delete pass releases the instance, it is
      listed nowhere afterwards if the template was found or it was not listed before; and
      unless somebody removes a whole set during that pass, it is still listed exactly when
      neither is the case. A delete pass without failures that is the last thing to hold
      the instance does release it. */
  lemma ListedAtReleaseExactlyWhen(cfg: Config, born: Life, before: seq<Event>, env: Env, recorded: bool)
    requires Newborn(cfg, born) && Run(cfg, born, before).deleting && Run(cfg, born, before).end.Alive?
    ensures var l, n := Run(cfg, born, before), Run(cfg, born, before + [Reconcile(env, recorded)]);
      && (Calm(env) && env.finalizers == [CTI_FINALIZER] ==> n.end.Released?)
      && (n.end.Released? ==>
            && n.end == Released(env.templateFound)
            && (env.templateFound || Unlisted(cfg, l.hub) ==> Unlisted(cfg, n.hub))
            && (Spared(cfg, env, l.hub) ==> (Unlisted(cfg, n.hub) <==> env.templateFound || Unlisted(cfg, l.hub))))
  {
    NewbornInv(cfg, born);
    RunKeeps(cfg, born, before);
    RunAppend(cfg, born, before, [Reconcile(env, recorded)]);
    var l := Run(cfg, born, before);
    hide Run, Unlisted, StoredInv, StoredBacked, RestGone, AllGone, Newborn, DeletePass, Spared, Calm;
    OneMore(cfg, l, Reconcile(env, recorded));
    InvIsOk(cfg, l.hub);
    if Calm(env) {
      CalmDeleteReleases(cfg, env, l.hub);
    }
    if DeletePass(cfg, env, l.hub).1 {
      ListedAfterReleaseExactlyWhen(cfg, env, l.hub);
    }
  }

  lemma OneMore(cfg: Config, l: Life, e: Event)
    ensures Run(cfg, l, [e]) == Step(cfg, l, e)
  {
    assert [e][1..] == [];
    assert Run(cfg, Step(cfg, l, e), []) == Step(cfg, l, e);
    hide Step;
  }

  lemma InvIsOk(cfg: Config, w: Server)
    requires HubInv(cfg, w)
    ensures DistinctSecrets(w.argoSecrets)
  {}

  // The interferences that take the instance out of the set, which only the set's removal does.
  ghost predicate Spares(cfg: Config, m: string, events: seq<Event>) {
    forall e | e in events && e.Others? :: !NotIn(cfg, e.after, m)
  }

  /** Nobody cleans up afterwards: from the release on, a set that does not list the
      instance never will, and one that does goes on doing so, whatever happens, until
      the whole set is removed. */
  lemma {:induction false} AfterRelease(cfg: Config, l: Life, events: seq<Event>, m: string)
    requires l.end.Released?
    ensures NotIn(cfg, l.hub, m) ==> NotIn(cfg, Run(cfg, l, events).hub, m)
    ensures !NotIn(cfg, l.hub, m) && Spares(cfg, m, events) ==> !NotIn(cfg, Run(cfg, l, events).hub, m)
    decreases |events|
  {
    if events != [] {
      var n := Step(cfg, l, events[0]);
      ReleasedStep(cfg, l, events[0], m);
      assert events[0] in events && forall e | e in events[1..] :: e in events;
      AfterRelease(cfg, n, events[1..], m);
    }
    hide Step, NotIn;
  }

  lemma ReleasedStep(cfg: Config, l: Life, e: Event, m: string)
    requires l.end.Released?
    ensures Step(cfg, l, e).end == l.end
    ensures NotIn(cfg, l.hub, m) ==> NotIn(cfg, Step(cfg, l, e).hub, m)
    ensures !NotIn(cfg, l.hub, m) && (e.Others? ==> !NotIn(cfg, e.after, m)) ==> !NotIn(cfg, Step(cfg, l, e).hub, m)
  {
    hide MyClusters, MySecrets, ServerOk, Pass, DeletePass;
  }

  // -------- the argo secret --------

  // Calls that may not make the argo secret leave the instance's own ones as they are.
  lemma {:induction false} TraceKeepsSecrets(cfg: Config, may: Powers, w: Server, calls: seq<Call>, n: Server)
    requires may.Passing? && !may.adds && Trace(cfg, may, w, calls, n)
    ensures MySecrets(cfg.Me(), n.argoSecrets) == MySecrets(cfg.Me(), w.argoSecrets)
    decreases |calls|
  {
    if calls != [] {
      var b := calls[0].before;
      var m := Apply(cfg, b, calls[0].change);
      assert m.argoSecrets == b.argoSecrets;
      TraceKeepsSecrets(cfg, may, m, calls[1..], n);
    }
    hide MyClusters, MySecrets, Own, HasOwn, ServerOk, FirstCluster, Target;
  }

  lemma StageKeepsSecrets(cfg: Config, env: Env, st: St, k: nat)
    requires k < STAGE_COUNT && ServerOk(st.hub) && (k == 6 ==> On(st, ArgoClusterAdded))
    ensures MySecrets(cfg.Me(), Stage(cfg, env, st, k).st.hub.argoSecrets) == MySecrets(cfg.Me(), st.hub.argoSecrets)
  {
    assert !PowersAt(st, k).adds;
    hide Stage, StageCalls, ServerOk, Trace, MySecrets, PowersAt;
    StageLeads(cfg, env, st, k);
    TraceKeepsSecrets(cfg, PowersAt(st, k), st.hub, StageCalls(cfg, env, st, k), Stage(cfg, env, st, k).st.hub);
  }

  lemma StageKeepsInv(cfg: Config, env: Env, st: St, k: nat)
    requires k < STAGE_COUNT && StatusInv(st) && HubInv(cfg, st.hub)
    ensures var r := Stage(cfg, env, st, k);
      && StatusInv(r.st) && HubInv(cfg, r.st.hub) && TwoValued(st) && ServerOk(st.hub)
      && (On(st, ArgoClusterAdded) ==> On(r.st, ArgoClusterAdded))
      && (k != 6 ==> On(r.st, ArgoClusterAdded) == On(st, ArgoClusterAdded))
  {
    assert TwoValued(st) && ServerOk(st.hub);
    hide Stage, HubInv, TwoValued, Passes.Chain, ServerOk, Grows;
    var r := Stage(cfg, env, st, k);
    StageSteps(cfg, env, st, k);
    StepAdvances(cfg, st, r.st, r.err == None, k);
    assert Latched(ArgoClusterAdded);
    MarksLeft(cfg, st, r.st, r.err == None, k);
    StageEvolves(cfg, env, st, k);
    hide StepFacts, On;
  }

  lemma {:induction false} StagesKeepSecrets(cfg: Config, env: Env, st: St, k: nat)
    requires k <= STAGE_COUNT && StatusInv(st) && HubInv(cfg, st.hub) && On(st, ArgoClusterAdded)
    ensures var r := Stages(cfg, env, st, k);
      MySecrets(cfg.Me(), r.st.hub.argoSecrets) == MySecrets(cfg.Me(), st.hub.argoSecrets) && On(r.st, ArgoClusterAdded)
    decreases STAGE_COUNT - k
  {
    hide Stage, HubInv, MySecrets, StatusInv, ServerOk, TwoValued, On;
    if k < STAGE_COUNT {
      StageKeepsInv(cfg, env, st, k);
      StageKeepsSecrets(cfg, env, st, k);
      if Stage(cfg, env, st, k).err == None {
        StagesKeepSecrets(cfg, env, Stage(cfg, env, st, k).st, k + 1);
      }
    }
  }

  // The cluster is recorded as added to Argo CD, without a secret of the instance's own.
  ghost predicate Bare(cfg: Config, l: Life) {
    && l.stored.Saved? && Get(l.stored.status.conditions, ArgoClusterAdded).status == True
    && NoSecrets(cfg, l.hub)
  }

  lemma PassStaysBare(cfg: Config, env: Env, l: Life)
    requires LifeInv(cfg, l) && !l.deleting && Bare(cfg, l)
    ensures var st := Pass(cfg, env, l.stored, l.hub).st; NoSecrets(cfg, st.hub) && On(st, ArgoClusterAdded)
  {
    StartInv(cfg, env, l.stored, l.hub);
    StartBacked(cfg, env, l.stored, l.hub);
    var st := PassStart(cfg, env, l.stored, l.hub);
    assert On(st, ArgoClusterAdded) && MySecrets(cfg.Me(), st.hub.argoSecrets) == [];
    hide Stages, HubInv, StatusInv, PassStart, Backed, Grows, MySecrets;
    StagesKeepSecrets(cfg, env, st, 0);
  }

  lemma StepStaysBare(cfg: Config, l: Life, e: Event)
    requires LifeInv(cfg, l) && Bare(cfg, l)
    ensures Bare(cfg, Step(cfg, l, e))
  {
    if e.Reconcile? && l.end.Alive? && l.deleting {
      CleanupClears(cfg, e.env, l.hub);
      HandledShrinks(cfg, e.env, Cleanup(cfg, e.env, l.hub).0, RemoveFinalizer);
    } else if e.Reconcile? && l.end.Alive? {
      PassStaysBare(cfg, e.env, l);
    }
    hide Pass, Cleanup, At, HubInv, AllGone, RestGone, Passes.Chain, TwoValued, MySecrets, Handled, Backed;
  }

  /** An instance whose cluster is recorded as added without a secret of its own never gets
      one: the step is not repeated. */
  lemma {:induction false} NeverGetsOwnSecret(cfg: Config, l: Life, events: seq<Event>)
    requires LifeInv(cfg, l) && Bare(cfg, l)
    ensures NoSecrets(cfg, Run(cfg, l, events).hub)
    decreases |events|
  {
    if events == [] {
      assert NoSecrets(cfg, l.hub);
    } else {
      StepKeeps(cfg, l, events[0]);
      StepStaysBare(cfg, l, events[0]);
      NeverGetsOwnSecret(cfg, Step(cfg, l, events[0]), events[1..]);
    }
    hide LifeInv, Step, Bare, NoSecrets;
  }

  // -------- the pass that adds the cluster --------

  // The server on which a pass that is in state `st` before step `k` looks the argo secret
  // up, if it gets there.
  function PassLookup(cfg: Config, env: Env, st: St, k: nat): Server
    requires k <= 6
    decreases 6 - k
  {
    if k < 6 then PassLookup(cfg, env, Stage(cfg, env, st, k).st, k + 1)
    else
      var w := Handled(cfg, env, st.hub, GetKubeconfigForArgo);
      SecretLookup(cfg, env, Handled(cfg, env, w, PrepareNewCluster))
  }

  // What the condition that the argo step turns on says about the instance's own secret.
  ghost predicate OwnsNone(cfg: Config, env: Env, w: Server, at: Server, n: Server) {
    ArgoSecretName(cfg, env).Some? &&
    (NoSecrets(cfg, n) <==> NoSecrets(cfg, w) && SecretNamed(at.argoSecrets, ArgoSecretName(cfg, env).value))
  }

  lemma AddedHere(cfg: Config, env: Env, st: St)
    requires !On(st, ArgoClusterAdded) && On(Stage(cfg, env, st, 6).st, ArgoClusterAdded)
    ensures var w := Handled(cfg, env, Handled(cfg, env, st.hub, GetKubeconfigForArgo), PrepareNewCluster);
      Stage(cfg, env, st, 6).st.hub == FinishArgo(cfg, env, w).0 && FinishArgo(cfg, env, w).1
    ensures Stage(cfg, env, st, 6).err == None
  {
    hide FinishArgo, FirstCluster, OnlyChanges, Handled;
  }

  lemma ArgoStepOwns(cfg: Config, env: Env, st: St)
    requires !On(st, ArgoClusterAdded) && On(Stage(cfg, env, st, 6).st, ArgoClusterAdded)
    ensures OwnsNone(cfg, env, st.hub, PassLookup(cfg, env, st, 6), Stage(cfg, env, st, 6).st.hub)
    ensures Stage(cfg, env, st, 6).err == None
  {
    hide Stage, FinishArgo, SecretNamed, MySecrets, ArgoSecretName, On, Handled, SecretLookup;
    AddedHere(cfg, env, st);
    var w := Handled(cfg, env, st.hub, GetKubeconfigForArgo);
    HandledKeepsSecrets(cfg, env, st.hub, GetKubeconfigForArgo);
    HandledKeepsSecrets(cfg, env, w, PrepareNewCluster);
    OwnSecretExactlyWhen(cfg, env, Handled(cfg, env, w, PrepareNewCluster));
  }

  lemma {:induction false} StagesOwn(cfg: Config, env: Env, st: St, k: nat)
    requires k <= 6 && StatusInv(st) && HubInv(cfg, st.hub) && !On(st, ArgoClusterAdded)
    ensures var r := Stages(cfg, env, st, k);
      On(r.st, ArgoClusterAdded) ==> OwnsNone(cfg, env, st.hub, PassLookup(cfg, env, st, k), r.st.hub)
    decreases 6 - k
  {
    hide Stage, HubInv, MySecrets, StatusInv, ServerOk, TwoValued, SecretNamed, ArgoSecretName, On, SecretLookup,
      Handled;
    var r := Stage(cfg, env, st, k);
    StageKeepsInv(cfg, env, st, k);
    if k < 6 {
      StageKeepsSecrets(cfg, env, st, k);
      if r.err == None {
        StagesOwn(cfg, env, r.st, k + 1);
      }
    } else if On(r.st, ArgoClusterAdded) {
      ArgoStepOwns(cfg, env, st);
      StagesKeepSecrets(cfg, env, r.st, 7);
    } else if r.err == None {
      NotAddedLater(cfg, env, r.st, 7);
    }
  }

  lemma {:induction false} NotAddedLater(cfg: Config, env: Env, st: St, k: nat)
    requires 7 <= k <= STAGE_COUNT && StatusInv(st) && HubInv(cfg, st.hub) && !On(st, ArgoClusterAdded)
    ensures !On(Stages(cfg, env, st, k).st, ArgoClusterAdded)
    decreases STAGE_COUNT - k
  {
    hide Stage, HubInv, StatusInv, ServerOk, TwoValued, On;
    if k < STAGE_COUNT {
      StageKeepsInv(cfg, env, st, k);
      if Stage(cfg, env, st, k).err == None {
        NotAddedLater(cfg, env, Stage(cfg, env, st, k).st, k + 1);
      }
    }
  }

  // Whatever comes, the instance has no argo secret of its own.
  ghost predicate NeverOwns(cfg: Config, l: Life) {
    forall events :: NoSecrets(cfg, Run(cfg, l, events).hub)
  }

  lemma BareForLife(cfg: Config, l: Life)
    requires LifeInv(cfg, l) && l.stored.Saved? && Get(l.stored.status.conditions, ArgoClusterAdded).status == True
    ensures NeverOwns(cfg, l) <==> NoSecrets(cfg, l.hub)
  {
    hide Run, LifeInv, NoSecrets;
    NothingRuns(cfg, l);
    if NoSecrets(cfg, l.hub) {
      forall events ensures NoSecrets(cfg, Run(cfg, l, events).hub) {
        NeverGetsOwnSecret(cfg, l, events);
      }
    } else {
      assert !NoSecrets(cfg, Run(cfg, l, []).hub);
    }
  }

  // The pass turns the condition on that says that the cluster is added.
  ghost predicate Adds(cfg: Config, l: Life, env: Env) {
    && !l.deleting && l.end.Alive?
    && (l.stored.Saved? ==> Get(l.stored.status.conditions, ArgoClusterAdded).status != True)
    && var s := Step(cfg, l, Reconcile(env, true)).stored;
       s.Saved? && Get(s.status.conditions, ArgoClusterAdded).status == True
  }

  /** Whatever else happens in it, the pass that records the cluster as added leaves the
      instance without a secret of its own, for all its life to come, exactly when it had
      none and the name was taken by the time it was looked up. */
  lemma NeverOwnsSecretExactlyWhen(cfg: Config, l: Life, env: Env)
    requires LifeInv(cfg, l) && Adds(cfg, l, env)
    ensures ArgoSecretName(cfg, env).Some?
    ensures NeverOwns(cfg, Step(cfg, l, Reconcile(env, true))) <==>
      && NoSecrets(cfg, l.hub)
      && SecretNamed(PassLookup(cfg, env, PassStart(cfg, env, l.stored, l.hub), 0).argoSecrets,
          ArgoSecretName(cfg, env).value)
  {
    hide Run, Step, LifeInv, NoSecrets, SecretNamed, ArgoSecretName, NeverOwns, Advances, PassLookup, PassStart;
    AddingPass(cfg, l, env);
    PassStepKeeps(cfg, l, env, true);
    BareForLife(cfg, Step(cfg, l, Reconcile(env, true)));
  }

  lemma NothingRuns(cfg: Config, l: Life)
    ensures Run(cfg, l, []) == l
  {}

  lemma StartsOff(cfg: Config, env: Env, l: Life)
    requires l.stored.Saved? ==> Get(l.stored.status.conditions, ArgoClusterAdded).status != True
    ensures var st := PassStart(cfg, env, l.stored, l.hub);
      !On(st, ArgoClusterAdded) && (NoSecrets(cfg, st.hub) <==> NoSecrets(cfg, l.hub))
  {
    HandledKeepsSecrets(cfg, env, l.hub, GetTemplate);
    hide Handled, MySecrets;
  }

  // Where the adding pass starts and what it comes to.
  lemma AddingPassIs(cfg: Config, l: Life, env: Env)
    requires LifeInv(cfg, l) && Adds(cfg, l, env)
    ensures var st := PassStart(cfg, env, l.stored, l.hub);
      && StatusInv(st) && HubInv(cfg, st.hub)
      && Step(cfg, l, Reconcile(env, true)).hub == Stages(cfg, env, st, 0).st.hub
      && On(Stages(cfg, env, st, 0).st, ArgoClusterAdded)
  {
    hide Stages, HubInv, StatusInv, PassStart, Backed, Grows, AllGone, RestGone, StoredInv, StoredBacked, Rely,
      DeletePass;
    StartInv(cfg, env, l.stored, l.hub);
    StartBacked(cfg, env, l.stored, l.hub);
    StartsOff(cfg, env, l);
  }

  lemma AddingPass(cfg: Config, l: Life, env: Env)
    requires LifeInv(cfg, l) && Adds(cfg, l, env)
    ensures var at := PassLookup(cfg, env, PassStart(cfg, env, l.stored, l.hub), 0);
      OwnsNone(cfg, env, l.hub, at, Step(cfg, l, Reconcile(env, true)).hub)
  {
    hide Stages, HubInv, StatusInv, PassStart, LifeInv, Step, PassLookup, SecretNamed, NoSecrets, On;
    StartsOff(cfg, env, l);
    AddingPassIs(cfg, l, env);
    StagesOwn(cfg, env, PassStart(cfg, env, l.stored, l.hub), 0);
  }
}
