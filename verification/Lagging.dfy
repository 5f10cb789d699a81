/** A delete pass whose lists may be older than the server: what it leaves behind. */
module Lagging {
  import opened Generators
  import opened Conditions
  import opened Hub
  import opened Lifecycle
  import opened Deletion
  import opened Convergence
  import opened Release

  // What the pass is shown for its two lists.
  datatype Lists = Lists(secrets: seq<ArgoSecret>, clusters: seq<ManagedCluster>)

  function LeaveArgoListed(cfg: Config, env: Env, w: Server, shown: Lists): (Server, bool) {
    var w1 := Handled(cfg, env, w, ListArgoSecrets);
    if !Ok(env, ListArgoSecrets) then (w1, false)
    else DeleteSecrets(cfg, env, w1, MySecrets(cfg.Me(), shown.secrets), 0)
  }

  // The removal of the cluster that has been found.
  function RemoveFound(cfg: Config, env: Env, w: Server, name: string): (Server, bool) {
    var (w1, ok) := DeleteAddons(cfg, env, w, name);
    if !ok then (w1, false)
    else
      var w2 := Handled(cfg, env, w1, DeleteCluster);
      if !Done(env, DeleteCluster) || !NameTaken(w2.clusters, name) then (w2, false)
      else (w2.(clusters := WithoutCluster(w2.clusters, name)), Ok(env, DeleteCluster))
  }

  function LeaveClusterListed(cfg: Config, env: Env, w: Server, shown: Lists): (Server, bool) {
    var w1 := Handled(cfg, env, w, ListForDelete);
    var mc := FirstCluster(cfg.Me(), shown.clusters);
    if !Ok(env, ListForDelete) then (w1, false)
    else if mc == None then (w1, true)
    else RemoveFound(cfg, env, w1, mc.value.name)
  }

  // Where the template's part of the delete pass ends.
  function AfterSets(cfg: Config, env: Env, w: Server): (Server, bool) {
    var w1 := Handled(cfg, env, w, GetTemplate);
    if env.templateFound then LeaveAppSets(cfg, env, w1) else (w1, true)
  }

  /** The delete pass on lists that show whatever they show. */
  function DeletePassListed(cfg: Config, env: Env, w: Server, shown: Lists): (Server, bool) {
    if env.finalizers != [CTI_FINALIZER] then (w, false)
    else if !Ok(env, GetTemplate) then (Handled(cfg, env, w, GetTemplate), false)
    else
      var (w2, ok2) := AfterSets(cfg, env, w);
      if !ok2 then (w2, false)
      else
        var (w3, ok3) := LeaveArgoListed(cfg, env, w2, shown);
        if !ok3 then (w3, false)
        else
          var (w4, ok4) := if cfg.enableManagedCluster then LeaveClusterListed(cfg, env, w3, shown) else (w3, true);
          if !ok4 then (w4, false) else (Handled(cfg, env, w4, RemoveFinalizer), Done(env, RemoveFinalizer))
  }

  // What the two lists show when they are up to date.
  function LiveLists(cfg: Config, env: Env, w: Server): Lists {
    var w2 := AfterSets(cfg, env, w).0;
    Lists(Handled(cfg, env, w2, ListArgoSecrets).argoSecrets,
          Handled(cfg, env, LeaveArgo(cfg, env, w2).0, ListForDelete).clusters)
  }

  /** With lists that are up to date it is the delete pass all other results are about. */
  lemma UpToDate(cfg: Config, env: Env, w: Server)
    ensures DeletePassListed(cfg, env, w, LiveLists(cfg, env, w)) == DeletePass(cfg, env, w)
  {
    hide Handled, LeaveAppSets, DeleteSecrets, MySecrets, FirstCluster, DeleteAddons, NameTaken, WithoutCluster;
  }

  // -------- what is missed --------

  ghost predicate Shows(listed: seq<ArgoSecret>, name: string) {
    exists j :: 0 <= j < |listed| && listed[j].name == name
  }

  ghost predicate FindsSecrets(cfg: Config, w: Server, shown: Lists) {
    forall x | x in MySecrets(cfg.Me(), w.argoSecrets) :: Shows(MySecrets(cfg.Me(), shown.secrets), x.name)
  }

  ghost predicate FindsCluster(cfg: Config, w: Server, shown: Lists) {
    var mc := FirstCluster(cfg.Me(), shown.clusters);
    forall x | x in MyClusters(cfg.Me(), w.clusters) :: mc.Some? && mc.value.name == x.name
  }

  // The lists miss nothing that the instance has.
  ghost predicate MissNothing(cfg: Config, w: Server, shown: Lists) {
    FindsSecrets(cfg, w, shown) && (cfg.enableManagedCluster ==> FindsCluster(cfg, w, shown))
  }

  // -------- secrets --------

  lemma {:induction false} WithoutSecretKeeps(me: Key, ss: seq<ArgoSecret>, name: string)
    ensures forall x | x in MySecrets(me, ss) && x.name != name :: x in MySecrets(me, WithoutSecret(ss, name))
  {
    if ss != [] {
      WithoutSecretKeeps(me, ss[1..], name);
      MySecretsAppend(me, if ss[0].name == name then [] else [ss[0]], WithoutSecret(ss[1..], name));
      assert MySecrets(me, [ss[0]]) == if ss[0].owner == Some(me) then [ss[0]] else [];
    }
  }

  // Listed from entry `i` on.
  ghost predicate ShownFrom(listed: seq<ArgoSecret>, i: nat, name: string) {
    exists j :: i <= j < |listed| && listed[j].name == name
  }

  lemma ShownNext(listed: seq<ArgoSecret>, i: nat, name: string)
    requires i < |listed|
    ensures ShownFrom(listed, i, name) <==> listed[i].name == name || ShownFrom(listed, i + 1, name)
  {}

  lemma OneRemoved(cfg: Config, env: Env, w: Server, listed: seq<ArgoSecret>, i: nat, x: ArgoSecret)
    requires i < |listed|
    ensures var n := Handled(cfg, env, w, DeleteArgoSecret(i));
      x in MySecrets(cfg.Me(), WithoutSecret(n.argoSecrets, listed[i].name)) <==>
      x in MySecrets(cfg.Me(), w.argoSecrets) && x.name != listed[i].name
  {
    hide MySecrets, WithoutSecret, Handled;
    var n := Handled(cfg, env, w, DeleteArgoSecret(i));
    HandledKeepsSecrets(cfg, env, w, DeleteArgoSecret(i));
    WithoutSecretMine(cfg.Me(), n.argoSecrets, listed[i].name);
    WithoutSecretKeeps(cfg.Me(), n.argoSecrets, listed[i].name);
  }

  // The loop removes what it has on its list, and nothing else of the instance.
  lemma {:induction false} LoopRemovesListed(cfg: Config, env: Env, w: Server, listed: seq<ArgoSecret>, i: nat,
      x: ArgoSecret)
    requires i <= |listed| && DeleteSecrets(cfg, env, w, listed, i).1
    ensures x in MySecrets(cfg.Me(), DeleteSecrets(cfg, env, w, listed, i).0.argoSecrets) <==>
      x in MySecrets(cfg.Me(), w.argoSecrets) && !ShownFrom(listed, i, x.name)
    decreases |listed| - i
  {
    hide MySecrets, WithoutSecret, Handled, SecretNamed, ShownFrom;
    if i < |listed| {
      var n := Handled(cfg, env, w, DeleteArgoSecret(i));
      OneRemoved(cfg, env, w, listed, i, x);
      ShownNext(listed, i, x.name);
      LoopRemovesListed(cfg, env, n.(argoSecrets := WithoutSecret(n.argoSecrets, listed[i].name)), listed, i + 1, x);
    } else {
      assert !ShownFrom(listed, i, x.name) by {
        NothingShown(listed, x.name);
      }
    }
  }

  lemma NothingShown(listed: seq<ArgoSecret>, name: string)
    ensures !ShownFrom(listed, |listed|, name)
  {}

  lemma ArgoGoneExactlyWhen(cfg: Config, env: Env, w: Server, shown: Lists)
    requires LeaveArgoListed(cfg, env, w, shown).1
    ensures NoSecrets(cfg, LeaveArgoListed(cfg, env, w, shown).0) <==> FindsSecrets(cfg, w, shown)
  {
    var w1, listed := Handled(cfg, env, w, ListArgoSecrets), MySecrets(cfg.Me(), shown.secrets);
    HandledKeepsSecrets(cfg, env, w, ListArgoSecrets);
    hide MySecrets, Handled, DeleteSecrets;
    var n := DeleteSecrets(cfg, env, w1, listed, 0).0;
    var mine := MySecrets(cfg.Me(), w.argoSecrets);
    forall x ensures x in MySecrets(cfg.Me(), n.argoSecrets) <==> x in mine && !Shows(listed, x.name) {
      LoopRemovesListed(cfg, env, w1, listed, 0, x);
    }
    HeadIsMember(MySecrets(cfg.Me(), n.argoSecrets));
  }

  // -------- clusters --------

  // Nobody else removes a managed cluster of the instance during the pass.
  ghost predicate ClustersKept(cfg: Config, env: Env, w: Server) {
    forall s, x | x in MyClusters(cfg.Me(), w.clusters) && env.reply(s).before.Some? ::
      x in MyClusters(cfg.Me(), env.reply(s).before.value.clusters)
  }

  // Cluster `x` has not come to the instance since `w`, and it has not gone if nobody else
  // has removed it.
  ghost predicate StaysMine(cfg: Config, env: Env, w: Server, a: Server, x: ManagedCluster) {
    && (x in MyClusters(cfg.Me(), a.clusters) ==> x in MyClusters(cfg.Me(), w.clusters))
    && (ClustersKept(cfg, env, w) && x in MyClusters(cfg.Me(), w.clusters) ==> x in MyClusters(cfg.Me(), a.clusters))
  }

  lemma HandledStaysMine(cfg: Config, env: Env, w: Server, a: Server, s: Site, x: ManagedCluster)
    requires StaysMine(cfg, env, w, a, x)
    ensures StaysMine(cfg, env, w, Handled(cfg, env, a, s), x)
  {
    hide MyClusters, MySecrets, Own, ServerOk;
  }

  lemma SameClusters(cfg: Config, env: Env, w: Server, a: Server, n: Server, x: ManagedCluster)
    requires StaysMine(cfg, env, w, a, x) && n.clusters == a.clusters
    ensures StaysMine(cfg, env, w, n, x)
  {
    hide MyClusters, ClustersKept;
  }

  lemma AddonsStayMine(cfg: Config, env: Env, w: Server, a: Server, name: string, x: ManagedCluster)
    requires StaysMine(cfg, env, w, a, x)
    ensures StaysMine(cfg, env, w, DeleteAddons(cfg, env, a, name).0, x)
  {
    hide Handled, StaysMine;
    var a1 := if cfg.enableKlusterlet then Handled(cfg, env, a, DeleteKlusterlet) else a;
    var a2 := if cfg.enableKlusterlet && Done(env, DeleteKlusterlet) then a1.(klusterlets := a1.klusterlets - {name})
      else a1;
    var a3 := Handled(cfg, env, a2, DeleteImportSecret);
    HandledStaysMine(cfg, env, w, a, DeleteKlusterlet, x);
    SameClusters(cfg, env, w, a1, a2, x);
    HandledStaysMine(cfg, env, w, a2, DeleteImportSecret, x);
    SameClusters(cfg, env, w, a3, a3.(importSecrets := a3.importSecrets - {name}), x);
  }

  lemma {:induction false} WithoutClusterKeeps(me: Key, cs: seq<ManagedCluster>, name: string)
    ensures forall x | x in MyClusters(me, cs) && x.name != name :: x in MyClusters(me, WithoutCluster(cs, name))
  {
    if cs != [] {
      WithoutClusterKeeps(me, cs[1..], name);
      MyClustersAppend(me, if cs[0].name == name then [] else [cs[0]], WithoutCluster(cs[1..], name));
      assert MyClusters(me, [cs[0]]) == if Matches(me, cs[0].labels) then [cs[0]] else [];
    }
  }

  // What a removal by name leaves of the instance's clusters.
  ghost predicate StaysBut(cfg: Config, env: Env, w: Server, n: Server, found: Option<ManagedCluster>,
      x: ManagedCluster) {
    if found.Some? && found.value.name == x.name then x !in MyClusters(cfg.Me(), n.clusters)
      else StaysMine(cfg, env, w, n, x)
  }

  lemma FoundIsRemoved(cfg: Config, env: Env, w: Server, a: Server, mc: ManagedCluster, x: ManagedCluster)
    requires StaysMine(cfg, env, w, a, x) && RemoveFound(cfg, env, a, mc.name).1
    ensures StaysBut(cfg, env, w, RemoveFound(cfg, env, a, mc.name).0, Some(mc), x)
  {
    hide Handled, MyClusters, DeleteAddons, WithoutCluster, NameTaken, ClustersKept;
    var a1 := DeleteAddons(cfg, env, a, mc.name).0;
    var a2 := Handled(cfg, env, a1, DeleteCluster);
    AddonsStayMine(cfg, env, w, a, mc.name, x);
    HandledStaysMine(cfg, env, w, a1, DeleteCluster, x);
    WithoutClusterMine(cfg.Me(), a2.clusters, mc.name);
    WithoutClusterKeeps(cfg.Me(), a2.clusters, mc.name);
  }

  lemma ClusterLeaves(cfg: Config, env: Env, w: Server, a: Server, shown: Lists, x: ManagedCluster)
    requires StaysMine(cfg, env, w, a, x) && LeaveClusterListed(cfg, env, a, shown).1
    ensures StaysBut(cfg, env, w, LeaveClusterListed(cfg, env, a, shown).0, FirstCluster(cfg.Me(), shown.clusters), x)
  {
    hide Handled, FirstCluster, RemoveFound, StaysMine, StaysBut;
    HandledStaysMine(cfg, env, w, a, ListForDelete, x);
    var a1, mc := Handled(cfg, env, a, ListForDelete), FirstCluster(cfg.Me(), shown.clusters);
    if mc.Some? {
      FoundIsRemoved(cfg, env, w, a1, mc.value, x);
    } else {
      NoneFoundStays(cfg, env, w, a1, x);
    }
  }

  lemma NoneFoundStays(cfg: Config, env: Env, w: Server, a: Server, x: ManagedCluster)
    requires StaysMine(cfg, env, w, a, x)
    ensures StaysBut(cfg, env, w, a, None, x)
  {
    hide StaysMine;
  }

  // -------- the rest of the pass --------

  // The instance's secrets are those of `w`, and cluster `x` is as StaysMine has it.
  ghost predicate Quiet(cfg: Config, env: Env, w: Server, a: Server, x: ManagedCluster) {
    MySecrets(cfg.Me(), a.argoSecrets) == MySecrets(cfg.Me(), w.argoSecrets) && StaysMine(cfg, env, w, a, x)
  }

  lemma HandledQuiet(cfg: Config, env: Env, w: Server, a: Server, s: Site, x: ManagedCluster)
    requires Quiet(cfg, env, w, a, x)
    ensures Quiet(cfg, env, w, Handled(cfg, env, a, s), x)
  {
    hide Handled, StaysMine, MySecrets;
    HandledStaysMine(cfg, env, w, a, s, x);
    HandledKeepsSecrets(cfg, env, a, s);
  }

  lemma WriteQuiet(cfg: Config, env: Env, w: Server, a: Server, name: string, copy: AppSet, gens: seq<Generator>,
      s: Site, x: ManagedCluster)
    requires Quiet(cfg, env, w, a, x)
    ensures Quiet(cfg, env, w, WriteAppSet(cfg.Me(), a, name, copy, gens, env.reply(s)).0, x)
  {
    HandledQuiet(cfg, env, w, a, s, x);
    var n := WriteAppSet(cfg.Me(), a, name, copy, gens, env.reply(s)).0;
    assert n.clusters == Handled(cfg, env, a, s).clusters && n.argoSecrets == Handled(cfg, env, a, s).argoSecrets;
    hide Handled, WriteAppSet, StaysMine;
    SameClusters(cfg, env, w, Handled(cfg, env, a, s), n, x);
  }

  lemma {:induction false} FetchQuiet(cfg: Config, env: Env, w: Server, a: Server, i: nat, sofar: Fetched,
      x: ManagedCluster)
    requires i <= |cfg.setups| && Quiet(cfg, env, w, a, x)
    ensures Quiet(cfg, env, w, FetchSetups(cfg, env, a, i, false, sofar).hub, x)
    decreases |cfg.setups| - i
  {
    hide Handled, Quiet;
    if i < |cfg.setups| {
      var a1, name := Handled(cfg, env, a, GetSetup(i)), cfg.setups[i];
      HandledQuiet(cfg, env, w, a, GetSetup(i), x);
      if Ok(env, GetSetup(i)) {
        FetchQuiet(cfg, env, w, a1, i + 1,
          if name in a1.appSets then Fetched(a1, true, sofar.count + 1, Some((name, a1.appSets[name]))) else sofar, x);
      }
    }
  }

  lemma {:induction false} RepeatQuiet(cfg: Config, env: Env, w: Server, a: Server, name: string, copy: AppSet, i: nat,
      count: nat, x: ManagedCluster)
    requires i <= count && Quiet(cfg, env, w, a, x)
    ensures Quiet(cfg, env, w, LeaveRepeatedly(cfg, env, a, name, copy, i, count).0, x)
    decreases count - i
  {
    hide WriteAppSet, Quiet, Without;
    if i < count {
      var gens := Without(cfg.Me(), copy.generators);
      WriteQuiet(cfg, env, w, a, name, copy, gens, UpdateSetup(i), x);
      var (n, ok) := WriteAppSet(cfg.Me(), a, name, copy, gens, env.reply(UpdateSetup(i)));
      if ok && name in n.appSets {
        RepeatQuiet(cfg, env, w, n, name, n.appSets[name], i + 1, count, x);
      }
    }
  }

  lemma LeaveSetsQuiet(cfg: Config, env: Env, w: Server, a: Server, x: ManagedCluster)
    requires Quiet(cfg, env, w, a, x)
    ensures Quiet(cfg, env, w, LeaveAppSets(cfg, env, a).0, x)
  {
    hide Handled, WriteAppSet, Quiet, FetchSetups, LeaveRepeatedly, Without;
    HandledQuiet(cfg, env, w, a, GetDefinition, x);
    var a1 := Handled(cfg, env, a, GetDefinition);
    if cfg.definition in a1.appSets {
      var copy := a1.appSets[cfg.definition];
      WriteQuiet(cfg, env, w, a1, cfg.definition, copy, Without(cfg.Me(), copy.generators), UpdateDefinition, x);
    }
    var a2 := if cfg.secretRef.Some? then a else LeaveDay1(cfg, env, a).0;
    FetchQuiet(cfg, env, w, a2, 0, NothingFetched(a2), x);
    var f := FetchSetups(cfg, env, a2, 0, false, NothingFetched(a2));
    if f.last.Some? {
      RepeatQuiet(cfg, env, w, f.hub, f.last.value.0, f.last.value.1, 0, f.count, x);
    }
  }

  lemma SetsQuiet(cfg: Config, env: Env, w: Server, x: ManagedCluster)
    ensures Quiet(cfg, env, w, AfterSets(cfg, env, w).0, x)
  {
    assert Quiet(cfg, env, w, w, x) by {
      hide MyClusters, MySecrets;
    }
    hide Handled, Quiet, LeaveAppSets;
    HandledQuiet(cfg, env, w, w, GetTemplate, x);
    LeaveSetsQuiet(cfg, env, w, Handled(cfg, env, w, GetTemplate), x);
  }

  lemma {:induction false} LoopStaysMine(cfg: Config, env: Env, w: Server, a: Server, listed: seq<ArgoSecret>, i: nat,
      x: ManagedCluster)
    requires i <= |listed| && StaysMine(cfg, env, w, a, x)
    ensures StaysMine(cfg, env, w, DeleteSecrets(cfg, env, a, listed, i).0, x)
    decreases |listed| - i
  {
    hide Handled, StaysMine, WithoutSecret, SecretNamed;
    if i < |listed| {
      var n := Handled(cfg, env, a, DeleteArgoSecret(i));
      var n1 := n.(argoSecrets := WithoutSecret(n.argoSecrets, listed[i].name));
      HandledStaysMine(cfg, env, w, a, DeleteArgoSecret(i), x);
      SameClusters(cfg, env, w, n, n1, x);
      LoopStaysMine(cfg, env, w, n1, listed, i + 1, x);
    }
  }

  lemma ArgoStaysMine(cfg: Config, env: Env, w: Server, a: Server, shown: Lists, x: ManagedCluster)
    requires StaysMine(cfg, env, w, a, x)
    ensures StaysMine(cfg, env, w, LeaveArgoListed(cfg, env, a, shown).0, x)
  {
    hide Handled, StaysMine, DeleteSecrets, MySecrets;
    HandledStaysMine(cfg, env, w, a, ListArgoSecrets, x);
    LoopStaysMine(cfg, env, w, Handled(cfg, env, a, ListArgoSecrets), MySecrets(cfg.Me(), shown.secrets), 0, x);
  }

  lemma FoundKeepsSecrets(cfg: Config, env: Env, a: Server, name: string)
    ensures MySecrets(cfg.Me(), RemoveFound(cfg, env, a, name).0.argoSecrets) == MySecrets(cfg.Me(), a.argoSecrets)
  {
    hide Handled, MySecrets, NameTaken, WithoutCluster;
    var a1 := if cfg.enableKlusterlet then Handled(cfg, env, a, DeleteKlusterlet) else a;
    var a2 := if cfg.enableKlusterlet && Done(env, DeleteKlusterlet) then a1.(klusterlets := a1.klusterlets - {name})
      else a1;
    HandledKeepsSecrets(cfg, env, a, DeleteKlusterlet);
    HandledKeepsSecrets(cfg, env, a2, DeleteImportSecret);
    HandledKeepsSecrets(cfg, env, DeleteAddons(cfg, env, a, name).0, DeleteCluster);
  }

  lemma ClusterKeepsSecrets(cfg: Config, env: Env, a: Server, shown: Lists)
    ensures MySecrets(cfg.Me(), LeaveClusterListed(cfg, env, a, shown).0.argoSecrets) ==
        MySecrets(cfg.Me(), a.argoSecrets)
  {
    hide Handled, MySecrets, RemoveFound, FirstCluster;
    HandledKeepsSecrets(cfg, env, a, ListForDelete);
    var mc := FirstCluster(cfg.Me(), shown.clusters);
    if mc.Some? {
      FoundKeepsSecrets(cfg, env, Handled(cfg, env, a, ListForDelete), mc.value.name);
    }
  }

  // -------- the release --------

  // The last two parts of a delete pass that releases, from where the sets are done with.
  lemma ReleasedThere(cfg: Config, env: Env, w: Server, shown: Lists)
    requires DeletePassListed(cfg, env, w, shown).1
    ensures var w2 := AfterSets(cfg, env, w).0;
      var r3 := LeaveArgoListed(cfg, env, w2, shown);
      var r4 := if cfg.enableManagedCluster then LeaveClusterListed(cfg, env, r3.0, shown) else (r3.0, true);
      && AfterSets(cfg, env, w).1 && r3.1 && r4.1
      && DeletePassListed(cfg, env, w, shown).0 == Handled(cfg, env, r4.0, RemoveFinalizer)
  {
    hide Handled, AfterSets, LeaveArgoListed, LeaveClusterListed;
  }

  lemma SecretsGoneExactlyWhen(cfg: Config, env: Env, w: Server, shown: Lists)
    requires DeletePassListed(cfg, env, w, shown).1
    ensures NoSecrets(cfg, DeletePassListed(cfg, env, w, shown).0) <==> FindsSecrets(cfg, w, shown)
  {
    hide Handled, AfterSets, LeaveArgoListed, LeaveClusterListed, DeletePassListed, MySecrets, StaysMine;
    ReleasedThere(cfg, env, w, shown);
    SetsQuiet(cfg, env, w, ManagedCluster("", map[]));
    var w2 := AfterSets(cfg, env, w).0;
    ArgoGoneExactlyWhen(cfg, env, w2, shown);
    var w3 := LeaveArgoListed(cfg, env, w2, shown).0;
    ClusterKeepsSecrets(cfg, env, w3, shown);
    HandledKeepsSecrets(cfg, env,
      if cfg.enableManagedCluster then LeaveClusterListed(cfg, env, w3, shown).0 else w3, RemoveFinalizer);
  }

  lemma ClusterAtEnd(cfg: Config, env: Env, w: Server, shown: Lists, x: ManagedCluster)
    requires DeletePassListed(cfg, env, w, shown).1 && cfg.enableManagedCluster
    ensures StaysBut(cfg, env, w, DeletePassListed(cfg, env, w, shown).0, FirstCluster(cfg.Me(), shown.clusters), x)
  {
    hide Handled, AfterSets, LeaveArgoListed, LeaveClusterListed, DeletePassListed, StaysMine, MySecrets, FirstCluster,
      MyClusters;
    ReleasedThere(cfg, env, w, shown);
    SetsQuiet(cfg, env, w, x);
    var w2 := AfterSets(cfg, env, w).0;
    ArgoStaysMine(cfg, env, w, w2, shown, x);
    var w3 := LeaveArgoListed(cfg, env, w2, shown).0;
    ClusterLeaves(cfg, env, w, w3, shown, x);
    var w4 := LeaveClusterListed(cfg, env, w3, shown).0;
    StaysButOn(cfg, env, w, w4, FirstCluster(cfg.Me(), shown.clusters), x);
  }

  lemma SelfStaysMine(cfg: Config, env: Env, w: Server, x: ManagedCluster)
    ensures StaysMine(cfg, env, w, w, x)
  {
    hide MyClusters, ClustersKept;
  }

  lemma StaysButOn(cfg: Config, env: Env, w: Server, a: Server, found: Option<ManagedCluster>, x: ManagedCluster)
    requires StaysBut(cfg, env, w, a, found, x)
    ensures StaysBut(cfg, env, w, Handled(cfg, env, a, RemoveFinalizer), found, x)
  {
    hide Handled, MyClusters, ClustersKept;
    if found.Some? && found.value.name == x.name {
      SelfStaysMine(cfg, env, a, x);
      HandledStaysMine(cfg, env, a, a, RemoveFinalizer, x);
    } else {
      HandledStaysMine(cfg, env, w, a, RemoveFinalizer, x);
    }
  }

  lemma ClustersGone(cfg: Config, env: Env, w: Server, shown: Lists)
    requires DeletePassListed(cfg, env, w, shown).1 && cfg.enableManagedCluster
    ensures var n := DeletePassListed(cfg, env, w, shown).0;
      && (FindsCluster(cfg, w, shown) ==> NoClusters(cfg, n))
      && (ClustersKept(cfg, env, w) && NoClusters(cfg, n) ==> FindsCluster(cfg, w, shown))
  {
    hide DeletePassListed, MyClusters, FirstCluster, ClustersKept;
    var n, found := DeletePassListed(cfg, env, w, shown).0, FirstCluster(cfg.Me(), shown.clusters);
    var mine, left := MyClusters(cfg.Me(), w.clusters), MyClusters(cfg.Me(), n.clusters);
    if FindsCluster(cfg, w, shown) && left != [] {
      assert left[0] in left;
      ClusterAtEnd(cfg, env, w, shown, left[0]);
    }
    forall x | x in mine && ClustersKept(cfg, env, w) && left == [] ensures found.Some? && found.value.name == x.name {
      ClusterAtEnd(cfg, env, w, shown, x);
    }
  }

  /** Whatever fails and whatever its lists show: a delete pass that lets the finalizer go
      leaves no argo secret of the instance exactly when its list missed none, and nothing
      at all if the lists missed nothing of what the instance had. Unless somebody else
      removes the instance's cluster meanwhile, the release is clean exactly then. */
  lemma CleanExactlyWhenNothingMissed(cfg: Config, env: Env, w: Server, shown: Lists)
    requires DeletePassListed(cfg, env, w, shown).1
    ensures var n := DeletePassListed(cfg, env, w, shown).0;
      && (NoSecrets(cfg, n) <==> FindsSecrets(cfg, w, shown))
      && (MissNothing(cfg, w, shown) ==> RestGone(cfg, n))
      && (ClustersKept(cfg, env, w) ==> (RestGone(cfg, n) <==> MissNothing(cfg, w, shown)))
  {
    hide DeletePassListed, FindsCluster, NoSecrets, NoClusters, FindsSecrets, ClustersKept;
    SecretsGoneExactlyWhen(cfg, env, w, shown);
    if cfg.enableManagedCluster {
      ClustersGone(cfg, env, w, shown);
    }
  }

  /** A delete pass without failures that is shown empty lists, the template being gone,
      lets the finalizer go and removes nothing at all, whatever the instance had. */
  lemma EmptyListsRemoveNothing(cfg: Config, env: Env, w: Server)
    requires Calm(env) && env.finalizers == [CTI_FINALIZER] && !env.templateFound
    ensures DeletePassListed(cfg, env, w, Lists([], [])) == (w, true)
  {
    hide LeaveAppSets, RemoveFound;
  }
}
