/** What a deletion takes with it, object by object, and that it takes nothing else. */
module Removals {
  import opened Generators
  import opened Conditions
  import opened Hub
  import opened Lifecycle
  import opened Passes
  import opened HubInvariants
  import opened Deletion
  import opened Lagging
  import opened Runs

  // -------- the add-ons of the cluster that was found --------

  // The server on which the delete pass lists the managed clusters.
  function ListServer(cfg: Config, env: Env, w: Server): Server {
    Handled(cfg, env, LeaveArgo(cfg, env, AfterSets(cfg, env, w).0).0, ListForDelete)
  }

  // By the time of one of these calls somebody else has made the import secret again.
  ghost predicate SecretRemade(env: Env, name: string) {
    exists s | s in [DeleteCluster, RemoveFinalizer] ::
      env.reply(s).before.Some? && name in env.reply(s).before.value.importSecrets
  }

  ghost predicate KlusterletRemade(env: Env, name: string) {
    exists s | s in [DeleteImportSecret, DeleteCluster, RemoveFinalizer] ::
      env.reply(s).before.Some? && name in env.reply(s).before.value.klusterlets
  }

  lemma StaysGone(cfg: Config, env: Env, w: Server, s: Site, name: string)
    ensures name !in w.importSecrets && (env.reply(s).before.Some? ==> name !in env.reply(s).before.value.importSecrets)
      ==> name !in Handled(cfg, env, w, s).importSecrets
    ensures name !in w.klusterlets && (env.reply(s).before.Some? ==> name !in env.reply(s).before.value.klusterlets)
      ==> name !in Handled(cfg, env, w, s).klusterlets
  {
    hide Rely;
  }

  lemma AddonsGo(cfg: Config, env: Env, w: Server, name: string)
    requires DeleteAddons(cfg, env, w, name).1
    ensures name !in DeleteAddons(cfg, env, w, name).0.importSecrets
    ensures cfg.enableKlusterlet && !KlusterletRemade(env, name) ==>
        name !in DeleteAddons(cfg, env, w, name).0.klusterlets
  {
    hide Handled;
    assert DeleteImportSecret in [DeleteImportSecret, DeleteCluster, RemoveFinalizer];
    var w1 := if cfg.enableKlusterlet then Handled(cfg, env, w, DeleteKlusterlet) else w;
    var w2 := if cfg.enableKlusterlet then w1.(klusterlets := w1.klusterlets - {name}) else w1;
    StaysGone(cfg, env, w2, DeleteImportSecret, name);
  }

  lemma ClusterGoesWithAddons(cfg: Config, env: Env, w: Server, mc: ManagedCluster)
    requires LeaveCluster(cfg, env, w).1
    requires FirstCluster(cfg.Me(), Handled(cfg, env, w, ListForDelete).clusters) == Some(mc)
    ensures var n := LeaveCluster(cfg, env, w).0;
      && (!SecretRemade(env, mc.name) ==> mc.name !in n.importSecrets)
      && (cfg.enableKlusterlet && !KlusterletRemade(env, mc.name) ==> mc.name !in n.klusterlets)
  {
    hide Handled, FirstCluster, DeleteAddons, WithoutCluster, NameTaken;
    assert DeleteCluster in [DeleteCluster, RemoveFinalizer];
    assert DeleteCluster in [DeleteImportSecret, DeleteCluster, RemoveFinalizer];
    var w1 := Handled(cfg, env, w, ListForDelete);
    AddonsGo(cfg, env, w1, mc.name);
    StaysGone(cfg, env, DeleteAddons(cfg, env, w1, mc.name).0, DeleteCluster, mc.name);
  }

  /** In any environment: a delete pass that releases an instance whose managed cluster it
      found has taken the cluster's import secret with it, and its add-on configuration
      where add-ons are enabled, unless somebody else has made them again meanwhile. */
  lemma FoundAddonsGo(cfg: Config, env: Env, w: Server, mc: ManagedCluster)
    requires DeletePass(cfg, env, w).1 && cfg.enableManagedCluster
    requires FirstCluster(cfg.Me(), ListServer(cfg, env, w).clusters) == Some(mc)
    ensures var n := DeletePass(cfg, env, w).0;
      && (!SecretRemade(env, mc.name) ==> mc.name !in n.importSecrets)
      && (cfg.enableKlusterlet && !KlusterletRemade(env, mc.name) ==> mc.name !in n.klusterlets)
  {
    hide Handled, FirstCluster, LeaveArgo, LeaveCluster, LeaveAppSets;
    assert RemoveFinalizer in [DeleteCluster, RemoveFinalizer];
    assert RemoveFinalizer in [DeleteImportSecret, DeleteCluster, RemoveFinalizer];
    var w3 := LeaveArgo(cfg, env, AfterSets(cfg, env, w).0).0;
    ClusterGoesWithAddons(cfg, env, w3, mc);
    StaysGone(cfg, env, LeaveCluster(cfg, env, w3).0, RemoveFinalizer, mc.name);
  }

  // -------- without interference --------

  // Nobody else acts during the pass; any of its calls may still fail.
  ghost predicate Undisturbed(env: Env) {
    forall s :: env.reply(s).before == None
  }

  lemma Still(cfg: Config, env: Env, w: Server, s: Site)
    requires Undisturbed(env)
    ensures Handled(cfg, env, w, s) == w
  {}

  // Only the ApplicationSets are touched, and of these only set `name`.
  predicate OnlySet(w: Server, n: Server, name: string) {
    && n == w.(rv := n.rv, appSets := n.appSets) && n.appSets.Keys == w.appSets.Keys
    && forall m | m in w.appSets && m != name :: n.appSets[m] == w.appSets[m]
  }

  // The set with the generators of the instance taken out.
  predicate TakenOut(cfg: Config, w: Server, n: Server, name: string) {
    && OnlySet(w, n, name)
    && (name in w.appSets ==>
          && n.appSets[name].template == w.appSets[name].template
          && n.appSets[name].generators == Without(cfg.Me(), w.appSets[name].generators))
  }

  lemma WriteTakesOut(cfg: Config, env: Env, w: Server, name: string, s: Site)
    requires Undisturbed(env) && name in w.appSets
    ensures var r := WriteAppSet(cfg.Me(), w, name, w.appSets[name], Without(cfg.Me(), w.appSets[name].generators),
        env.reply(s));
      r.1 ==> TakenOut(cfg, w, r.0, name)
  {
    hide Without;
  }

  lemma TakenTwice(cfg: Config, a: Server, b: Server, c: Server, name: string)
    requires TakenOut(cfg, a, b, name) && TakenOut(cfg, b, c, name)
    ensures TakenOut(cfg, a, c, name)
  {
    if name in a.appSets {
      WithoutIsIdentity(cfg.Me(), Without(cfg.Me(), a.appSets[name].generators));
    }
    hide Without, HasOwn;
  }

  lemma {:induction false} RepeatTakesOut(cfg: Config, env: Env, w: Server, name: string, i: nat, count: nat)
    requires Undisturbed(env) && i < count && name in w.appSets
    ensures var r := LeaveRepeatedly(cfg, env, w, name, w.appSets[name], i, count); r.1 ==> TakenOut(cfg, w, r.0, name)
    decreases count - i
  {
    hide Without, WriteAppSet, TakenOut;
    var me := cfg.Me();
    WriteTakesOut(cfg, env, w, name, UpdateSetup(i));
    var (n, ok) := WriteAppSet(me, w, name, w.appSets[name], Without(me, w.appSets[name].generators),
      env.reply(UpdateSetup(i)));
    if ok && name in n.appSets && i + 1 < count {
      RepeatTakesOut(cfg, env, n, name, i + 1, count);
      if LeaveRepeatedly(cfg, env, n, name, n.appSets[name], i + 1, count).1 {
        TakenTwice(cfg, w, n, LeaveRepeatedly(cfg, env, n, name, n.appSets[name], i + 1, count).0, name);
      }
    } else if ok && name in n.appSets {
      assert LeaveRepeatedly(cfg, env, n, name, n.appSets[name], i + 1, count) == (n, true);
    }
  }

  lemma {:induction false} FetchedHere(cfg: Config, env: Env, w: Server, i: nat, sofar: Fetched)
    requires Undisturbed(env) && i <= |cfg.setups| && (sofar.last.Some? <==> 0 < sofar.count)
    requires sofar.last.Some? ==> sofar.last.value.0 in w.appSets && sofar.last.value.1 == w.appSets[sofar.last.value.0]
    ensures var f := FetchSetups(cfg, env, w, i, false, sofar);
      && f.hub == w
      && (f.ok ==> (f.last.Some? <==> 0 < f.count))
      && (f.ok && f.last.Some? ==> f.last.value.0 in w.appSets && f.last.value.1 == w.appSets[f.last.value.0])
      && (f.ok && i < |cfg.setups| && cfg.setups[|cfg.setups| - 1] in w.appSets ==>
            f.last.Some? && f.last.value.0 == cfg.setups[|cfg.setups| - 1])
    decreases |cfg.setups| - i
  {
    hide Handled, Undisturbed;
    if i < |cfg.setups| {
      Still(cfg, env, w, GetSetup(i));
      var name := cfg.setups[i];
      FetchedHere(cfg, env, w, i + 1,
        if name in w.appSets then Fetched(w, true, sofar.count + 1, Some((name, w.appSets[name]))) else sofar);
    }
  }

  // No set lists the instance any more, and otherwise every set is as it was.
  ghost predicate SetsCleared(cfg: Config, w: Server, n: Server) {
    && n == w.(rv := n.rv, appSets := n.appSets) && n.appSets.Keys == w.appSets.Keys
    && forall m | m in w.appSets ::
         && n.appSets[m].template == w.appSets[m].template
         && n.appSets[m].generators == Without(cfg.Me(), w.appSets[m].generators)
  }

  // The sets that are not targets have nothing to lose.
  lemma NotATarget(cfg: Config, w: Server, m: string)
    requires HubInv(cfg, w) && m in w.appSets && !Target(cfg, m)
    ensures Without(cfg.Me(), w.appSets[m].generators) == w.appSets[m].generators
  {
    WithoutIsIdentity(cfg.Me(), w.appSets[m].generators);
    hide Target, Without, Own, MyClusters, MySecrets;
  }

  lemma DefinitionTakesOut(cfg: Config, env: Env, w: Server)
    requires Undisturbed(env)
    ensures LeaveDay1(cfg, env, w).1 ==> TakenOut(cfg, w, LeaveDay1(cfg, env, w).0, cfg.definition)
  {
    hide Handled, WriteAppSet, TakenOut, Undisturbed;
    Still(cfg, env, w, GetDefinition);
    if cfg.definition in w.appSets {
      WriteTakesOut(cfg, env, w, cfg.definition, UpdateDefinition);
    } else {
      NothingTakenOut(cfg, w, cfg.definition);
    }
  }

  lemma NothingTakenOut(cfg: Config, w: Server, name: string)
    requires name !in w.appSets
    ensures TakenOut(cfg, w, w, name)
  {}

  // The same, if there was a set to work on.
  predicate TakenIf(cfg: Config, w: Server, n: Server, name: Option<string>) {
    if name.None? then n == w else TakenOut(cfg, w, n, name.value)
  }

  // The set that the second removal works on.
  lemma SetupTakesOut(cfg: Config, env: Env, w: Server) returns (name: Option<string>)
    requires Undisturbed(env) && LeaveDay2(cfg, env, w).1
    ensures TakenIf(cfg, w, LeaveDay2(cfg, env, w).0, name)
    ensures cfg.setups != [] && cfg.setups[|cfg.setups| - 1] in w.appSets ==> name == Some(cfg.setups[|cfg.setups| - 1])
  {
    hide FetchSetups, LeaveRepeatedly, TakenOut;
    FetchedHere(cfg, env, w, 0, NothingFetched(w));
    var f := FetchSetups(cfg, env, w, 0, false, NothingFetched(w));
    if f.last.Some? {
      name := Some(f.last.value.0);
      RepeatTakesOut(cfg, env, w, f.last.value.0, 0, f.count);
    } else {
      name := None;
    }
  }

  lemma AllTakenOut(cfg: Config, w: Server, a: Server, n: Server, name: Option<string>)
    requires HubInv(cfg, w)
    requires if cfg.secretRef.Some? then a == w else TakenOut(cfg, w, a, cfg.definition)
    requires TakenIf(cfg, a, n, name)
    requires cfg.setups != [] && cfg.setups[|cfg.setups| - 1] in w.appSets ==>
        name == Some(cfg.setups[|cfg.setups| - 1])
    ensures SetsCleared(cfg, w, n)
  {
    hide HubInv, Without, HasOwn;
    forall m | m in w.appSets
      ensures n.appSets[m].template == w.appSets[m].template
      ensures n.appSets[m].generators == Without(cfg.Me(), w.appSets[m].generators)
    {
      WithoutIsIdentity(cfg.Me(), Without(cfg.Me(), w.appSets[m].generators));
      if !Target(cfg, m) {
        NotATarget(cfg, w, m);
      }
    }
  }

  lemma SetsClear(cfg: Config, env: Env, w: Server)
    requires HubInv(cfg, w) && Undisturbed(env) && LeaveAppSets(cfg, env, w).1
    ensures SetsCleared(cfg, w, LeaveAppSets(cfg, env, w).0)
  {
    hide HubInv, Undisturbed, LeaveDay1, LeaveDay2, TakenOut, SetsCleared;
    var a := if cfg.secretRef.Some? then w else LeaveDay1(cfg, env, w).0;
    DefinitionTakesOut(cfg, env, w);
    var name := SetupTakesOut(cfg, env, a);
    if cfg.secretRef.None? {
      SameKeys(cfg, w, a, cfg.definition);
    }
    AllTakenOut(cfg, w, a, LeaveAppSets(cfg, env, w).0, name);
  }

  lemma SameKeys(cfg: Config, w: Server, a: Server, name: string)
    requires TakenOut(cfg, w, a, name)
    ensures a.appSets.Keys == w.appSets.Keys
  {}

  // -------- the other objects --------

  lemma {:induction false} LoopLeavesOthers(cfg: Config, env: Env, w: Server, listed: seq<ArgoSecret>, i: nat,
      x: ArgoSecret)
    requires Undisturbed(env) && i <= |listed| && DeleteSecrets(cfg, env, w, listed, i).1
    ensures var n := DeleteSecrets(cfg, env, w, listed, i).0;
      && n == w.(argoSecrets := n.argoSecrets)
      && (x in n.argoSecrets <==> x in w.argoSecrets && !ShownFrom(listed, i, x.name))
    decreases |listed| - i
  {
    hide Handled, WithoutSecret, SecretNamed, ShownFrom, Undisturbed;
    if i < |listed| {
      Still(cfg, env, w, DeleteArgoSecret(i));
      SecretMembers(w.argoSecrets, listed[i].name, x);
      ShownNext(listed, i, x.name);
      LoopLeavesOthers(cfg, env, w.(argoSecrets := WithoutSecret(w.argoSecrets, listed[i].name)), listed, i + 1, x);
    } else {
      NothingShown(listed, x.name);
    }
  }

  lemma {:induction false} SecretMembers(ss: seq<ArgoSecret>, name: string, x: ArgoSecret)
    ensures x in WithoutSecret(ss, name) <==> x in ss && x.name != name
  {
    if ss != [] {
      SecretMembers(ss[1..], name, x);
    }
  }

  lemma {:induction false} ClusterMembers(cs: seq<ManagedCluster>, name: string, x: ManagedCluster)
    ensures x in WithoutCluster(cs, name) <==> x in cs && x.name != name
  {
    if cs != [] {
      ClusterMembers(cs[1..], name, x);
    }
  }

  lemma {:induction false} MineMembers(me: Key, ss: seq<ArgoSecret>, cs: seq<ManagedCluster>)
    ensures forall x :: x in MySecrets(me, ss) <==> x in ss && x.owner == Some(me)
    ensures forall x :: x in MyClusters(me, cs) <==> x in cs && Matches(me, x.labels)
    decreases |ss| + |cs|
  {
    hide Matches;
    if ss != [] {
      MineMembers(me, ss[1..], cs);
    } else if cs != [] {
      MineMembers(me, ss, cs[1..]);
    }
  }

  lemma SameNameSame(ss: seq<ArgoSecret>, cs: seq<ManagedCluster>)
    ensures DistinctSecrets(ss) ==> forall x, y | x in ss && y in ss && x.name == y.name :: x == y
    ensures DistinctClusters(cs) ==> forall x, y | x in cs && y in cs && x.name == y.name :: x == y
  {}

  // The argo secrets of the instance go, the others stay.
  lemma SecretsGo(cfg: Config, env: Env, w: Server, x: ArgoSecret)
    requires Undisturbed(env) && DistinctSecrets(w.argoSecrets) && LeaveArgo(cfg, env, w).1
    ensures var n := LeaveArgo(cfg, env, w).0;
      && n == w.(argoSecrets := n.argoSecrets)
      && (x in n.argoSecrets <==> x in w.argoSecrets && x.owner != Some(cfg.Me()))
  {
    hide DeleteSecrets, MySecrets, MyClusters, DistinctSecrets, DistinctClusters;
    var listed := MySecrets(cfg.Me(), w.argoSecrets);
    LoopLeavesOthers(cfg, env, w, listed, 0, x);
    MineMembers(cfg.Me(), w.argoSecrets, []);
    SameNameSame(w.argoSecrets, []);
    forall j | 0 <= j < |listed| ensures listed[j] in w.argoSecrets && listed[j].owner == Some(cfg.Me()) {
      assert listed[j] in listed;
    }
    if x in w.argoSecrets && x.owner == Some(cfg.Me()) {
      var j :| 0 <= j < |listed| && listed[j] == x;
      assert ShownFrom(listed, 0, x.name);
    }
  }

  // The instance's managed clusters by name.
  ghost predicate NamesMine(cfg: Config, w: Server, name: string) {
    exists mc :: mc in w.clusters && Matches(cfg.Me(), mc.labels) && mc.name == name
  }

  // The managed cluster of the instance goes with its add-ons, the others stay with theirs.
  ghost predicate ClusterGone(cfg: Config, w: Server, n: Server) {
    && n == w.(clusters := n.clusters, importSecrets := n.importSecrets, klusterlets := n.klusterlets)
    && (forall x :: x in n.clusters <==> x in w.clusters && !Matches(cfg.Me(), x.labels))
    && (forall x :: x in n.importSecrets <==> x in w.importSecrets && !NamesMine(cfg, w, x))
    && (forall x :: x in n.klusterlets <==> x in w.klusterlets && !(cfg.enableKlusterlet && NamesMine(cfg, w, x)))
  }

  lemma FoundGoes(cfg: Config, env: Env, w: Server)
    requires Undisturbed(env) && LeaveCluster(cfg, env, w).1
    ensures var mc := FirstCluster(cfg.Me(), w.clusters);
      LeaveCluster(cfg, env, w).0 ==
        if mc.None? then w
        else w.(clusters := WithoutCluster(w.clusters, mc.value.name),
                importSecrets := w.importSecrets - {mc.value.name},
                klusterlets := if cfg.enableKlusterlet then w.klusterlets - {mc.value.name} else w.klusterlets)
  {
    hide FirstCluster, WithoutCluster, NameTaken, Rely;
  }

  // The one cluster of the instance, if there is one.
  lemma OnlyOneMine(cfg: Config, w: Server)
    requires HubInv(cfg, w)
    ensures var mc := FirstCluster(cfg.Me(), w.clusters);
      && (mc.None? ==> forall x :: x in w.clusters ==> !Matches(cfg.Me(), x.labels))
      && (mc.Some? ==> forall x :: x in w.clusters && Matches(cfg.Me(), x.labels) <==> x == mc.value)
      && (mc.Some? ==> forall x :: x in w.clusters && x.name == mc.value.name <==> x == mc.value)
  {
    var me := cfg.Me();
    FirstClusterIsHead(me, w.clusters);
    MineMembers(me, [], w.clusters);
    SameNameSame([], w.clusters);
    assert DistinctClusters(w.clusters) && |MyClusters(me, w.clusters)| <= 1;
    hide HubInv, FirstCluster, MyClusters, MySecrets, Matches, DistinctClusters;
    var mine := MyClusters(me, w.clusters);
    if mine != [] {
      assert mine == [mine[0]] && mine[0] in mine;
    }
  }

  lemma ClusterGoes(cfg: Config, env: Env, w: Server)
    requires Undisturbed(env) && HubInv(cfg, w) && LeaveCluster(cfg, env, w).1
    ensures ClusterGone(cfg, w, LeaveCluster(cfg, env, w).0)
  {
    hide HubInv, FirstCluster, Matches, WithoutCluster, LeaveCluster, Undisturbed;
    FoundGoes(cfg, env, w);
    OnlyOneMine(cfg, w);
    var mc := FirstCluster(cfg.Me(), w.clusters);
    if mc.Some? {
      forall x ensures x in WithoutCluster(w.clusters, mc.value.name) <==>
        x in w.clusters && !Matches(cfg.Me(), x.labels) {
        ClusterMembers(w.clusters, mc.value.name, x);
      }
      assert mc.value in w.clusters && Matches(cfg.Me(), mc.value.labels);
      assert forall x :: NamesMine(cfg, w, x) <==> x == mc.value.name;
    }
  }

  // -------- the whole release --------

  // What `n` has of the sets of `w`.
  ghost predicate SetsAfter(cfg: Config, w: Server, n: Server, templateFound: bool) {
    && n.appSets.Keys == w.appSets.Keys
    && forall m | m in w.appSets ::
         && n.appSets[m].template == w.appSets[m].template
         && n.appSets[m].generators ==
              if templateFound then Without(cfg.Me(), w.appSets[m].generators) else w.appSets[m].generators
  }

  lemma ReleasedAt(cfg: Config, env: Env, w: Server)
    requires Undisturbed(env) && DeletePass(cfg, env, w).1
    ensures var r2 := if env.templateFound then LeaveAppSets(cfg, env, w) else (w, true);
      var r3 := LeaveArgo(cfg, env, r2.0);
      var r4 := if cfg.enableManagedCluster then LeaveCluster(cfg, env, r3.0) else r3;
      r2.1 && r3.1 && r4.1 && DeletePass(cfg, env, w).0 == r4.0
  {
    hide Handled, LeaveAppSets, LeaveArgo, LeaveCluster, Undisturbed;
    Still(cfg, env, w, GetTemplate);
    Still(cfg, env, Cleanup(cfg, env, w).0, RemoveFinalizer);
  }

  lemma InvOnTheWay(cfg: Config, env: Env, w: Server)
    requires HubInv(cfg, w)
    ensures var w2 := if env.templateFound then LeaveAppSets(cfg, env, w).0 else w;
      && HubInv(cfg, w2) && DistinctSecrets(w2.argoSecrets)
      && HubInv(cfg, LeaveArgo(cfg, env, w2).0)
  {
    LeaveAppSetsClears(cfg, env, w);
    var w2 := if env.templateFound then LeaveAppSets(cfg, env, w).0 else w;
    LeaveArgoClears(cfg, env, w2);
    InvAfter(cfg, w, LeaveAppSets(cfg, env, w).0);
    InvAfter(cfg, w2, LeaveArgo(cfg, env, w2).0);
    assert HubInv(cfg, w2) ==> DistinctSecrets(w2.argoSecrets);
    hide LeaveAppSets, LeaveArgo, Shrinks, MyClusters, MySecrets, NotIn;
  }

  /** A delete pass that releases the instance while nobody else acts, whatever of it may
      have failed before: in every ApplicationSet exactly the instance's generators are gone,
      if the template was found, and none if it was not; exactly its argo secrets; and, where
      managed clusters are enabled, exactly its managed cluster with that cluster's import
      secret and, where add-ons are enabled, its add-on configuration. Nothing else changes,
      not even the credentials. */
  lemma ReleaseTakesExactly(cfg: Config, env: Env, w: Server)
    requires HubInv(cfg, w) && Undisturbed(env) && DeletePass(cfg, env, w).1
    ensures var n := DeletePass(cfg, env, w).0;
      && n.kubeconfigs == w.kubeconfigs && n.passwords == w.passwords
      && SetsAfter(cfg, w, n, env.templateFound)
      && (forall x :: x in n.argoSecrets <==> x in w.argoSecrets && x.owner != Some(cfg.Me()))
      && (forall x :: x in n.clusters <==>
            x in w.clusters && !(cfg.enableManagedCluster && Matches(cfg.Me(), x.labels)))
      && (forall x :: x in n.importSecrets <==>
            x in w.importSecrets && !(cfg.enableManagedCluster && NamesMine(cfg, w, x)))
      && (forall x :: x in n.klusterlets <==>
            x in w.klusterlets && !(cfg.enableManagedCluster && cfg.enableKlusterlet && NamesMine(cfg, w, x)))
  {
    hide DeletePass, HubInv, Undisturbed, LeaveAppSets, LeaveArgo, LeaveCluster, Matches, Without, DistinctSecrets;
    ReleasedAt(cfg, env, w);
    InvOnTheWay(cfg, env, w);
    if env.templateFound {
      SetsClear(cfg, env, w);
    }
    var w2 := if env.templateFound then LeaveAppSets(cfg, env, w).0 else w;
    var w3 := LeaveArgo(cfg, env, w2).0;
    forall x ensures w3 == w2.(argoSecrets := w3.argoSecrets) &&
        (x in w3.argoSecrets <==> x in w2.argoSecrets && x.owner != Some(cfg.Me()))
    {
      SecretsGo(cfg, env, w2, x);
    }
    SecretsGo(cfg, env, w2, ArgoSecret("", None));
    assert forall x :: NamesMine(cfg, w3, x) <==> NamesMine(cfg, w, x);
    if cfg.enableManagedCluster {
      ClusterGoes(cfg, env, w3);
    }
  }

  /** The same at the end of any life, whatever came before. */
  lemma LifeTakesExactly(cfg: Config, born: Life, before: seq<Event>, env: Env, recorded: bool)
    requires Newborn(cfg, born) && Undisturbed(env)
    requires Run(cfg, born, before).deleting && Run(cfg, born, before).end.Alive?
    requires Run(cfg, born, before + [Reconcile(env, recorded)]).end.Released?
    ensures var w, n := Run(cfg, born, before).hub, Run(cfg, born, before + [Reconcile(env, recorded)]).hub;
      && SetsAfter(cfg, w, n, env.templateFound)
      && (forall x :: x in n.argoSecrets <==> x in w.argoSecrets && x.owner != Some(cfg.Me()))
      && (forall x :: x in n.clusters <==>
          x in w.clusters && !(cfg.enableManagedCluster && Matches(cfg.Me(), x.labels)))
      && (forall x :: x in n.importSecrets <==>
            x in w.importSecrets && !(cfg.enableManagedCluster && NamesMine(cfg, w, x)))
      && (forall x :: x in n.klusterlets <==>
            x in w.klusterlets && !(cfg.enableManagedCluster && cfg.enableKlusterlet && NamesMine(cfg, w, x)))
  {
    NewbornInv(cfg, born);
    RunKeeps(cfg, born, before);
    RunAppend(cfg, born, before, [Reconcile(env, recorded)]);
    var l, e := Run(cfg, born, before), Reconcile(env, recorded);
    assert [e][1..] == [];
    assert Run(cfg, Step(cfg, l, e), []) == Step(cfg, l, e);
    assert Run(cfg, l, [e]) == Step(cfg, l, e);
    hide Run, StoredInv, StoredBacked, RestGone, AllGone, Newborn, DeletePass, HubInv, Matches, SetsAfter, NamesMine;
    ReleaseTakesExactly(cfg, env, l.hub);
  }
}
