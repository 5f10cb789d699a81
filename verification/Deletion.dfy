/** The delete pass behind the finalizer, and what is gone once it lets the finalizer go. */
module Deletion {
  import opened Generators
  import opened Conditions
  import opened Hub
  import opened Lifecycle
  import opened HubInvariants
  import Calls

  // DeleteDay1Application.
  function LeaveDay1(cfg: Config, env: Env, w: Server): (Server, bool) {
    var w1 := Handled(cfg, env, w, GetDefinition);
    if cfg.definition !in w1.appSets then (w1, env.reply(GetDefinition).outcome.Served?)
    else if !Ok(env, GetDefinition) then (w1, false)
    else
      var copy := w1.appSets[cfg.definition];
      WriteAppSet(cfg.Me(), w1, cfg.definition, copy, Without(cfg.Me(), copy.generators), env.reply(UpdateDefinition))
  }

  /** The loop of DeleteDay2Application over `count` entries that are one object: each
      round filters that object and writes it again under the version it last got. */
  function LeaveRepeatedly(cfg: Config, env: Env, w: Server, name: string, copy: AppSet, i: nat,
      count: nat): (Server, bool)
    requires i <= count
    decreases count - i
  {
    if i == count then (w, true)
    else
      var gens := Without(cfg.Me(), copy.generators);
      var (n, ok) := WriteAppSet(cfg.Me(), w, name, copy, gens, env.reply(UpdateSetup(i)));
      if !ok || name !in n.appSets then (n, false)
      else LeaveRepeatedly(cfg, env, n, name, n.appSets[name], i + 1, count)
  }

  // DeleteDay2Application.
  function LeaveDay2(cfg: Config, env: Env, w: Server): (Server, bool) {
    var f := FetchSetups(cfg, env, w, 0, false, NothingFetched(w));
    if !f.ok then (f.hub, false)
    else if f.last == None then (f.hub, true)
    else LeaveRepeatedly(cfg, env, f.hub, f.last.value.0, f.last.value.1, 0, f.count)
  }

  function LeaveAppSets(cfg: Config, env: Env, w: Server): (Server, bool) {
    var (w1, ok) := if cfg.secretRef.Some? then (w, true) else LeaveDay1(cfg, env, w);
    if !ok then (w1, false) else LeaveDay2(cfg, env, w1)
  }

  // The loop over the listed argo secrets; deleting a missing one is an error here.
  function DeleteSecrets(cfg: Config, env: Env, w: Server, listed: seq<ArgoSecret>, i: nat): (Server, bool)
    requires i <= |listed|
    decreases |listed| - i
  {
    if i == |listed| then (w, true)
    else
      var n := Handled(cfg, env, w, DeleteArgoSecret(i));
      if !Done(env, DeleteArgoSecret(i)) || !SecretNamed(n.argoSecrets, listed[i].name) then (n, false)
      else
        var n1 := n.(argoSecrets := WithoutSecret(n.argoSecrets, listed[i].name));
        if !Ok(env, DeleteArgoSecret(i)) then (n1, false) else DeleteSecrets(cfg, env, n1, listed, i + 1)
  }

  function LeaveArgo(cfg: Config, env: Env, w: Server): (Server, bool) {
    var w1 := Handled(cfg, env, w, ListArgoSecrets);
    if !Ok(env, ListArgoSecrets) then (w1, false)
    else DeleteSecrets(cfg, env, w1, MySecrets(cfg.Me(), w1.argoSecrets), 0)
  }

  // Deletes of the add-on config and the import secret; a missing object is fine.
  function DeleteAddons(cfg: Config, env: Env, w: Server, name: string): (Server, bool) {
    var w1 := if cfg.enableKlusterlet then Handled(cfg, env, w, DeleteKlusterlet) else w;
    var w2 := if cfg.enableKlusterlet && Done(env, DeleteKlusterlet) then w1.(klusterlets := w1.klusterlets - {name})
      else w1;
    if cfg.enableKlusterlet && !Ok(env, DeleteKlusterlet) then (w2, false)
    else
      var w3 := Handled(cfg, env, w2, DeleteImportSecret);
      if !Done(env, DeleteImportSecret) then (w3, false)
      else (w3.(importSecrets := w3.importSecrets - {name}), Ok(env, DeleteImportSecret))
  }

  function LeaveCluster(cfg: Config, env: Env, w: Server): (Server, bool) {
    var w1 := Handled(cfg, env, w, ListForDelete);
    var mc := FirstCluster(cfg.Me(), w1.clusters);
    if !Ok(env, ListForDelete) then (w1, false)
    else if mc == None then (w1, true)
    else
      var (w2, ok) := DeleteAddons(cfg, env, w1, mc.value.name);
      if !ok then (w2, false)
      else
        var w3 := Handled(cfg, env, w2, DeleteCluster);
        if !Done(env, DeleteCluster) || !NameTaken(w3.clusters, mc.value.name) then (w3, false)
        else (w3.(clusters := WithoutCluster(w3.clusters, mc.value.name)), Ok(env, DeleteCluster))
  }

  const CTI_FINALIZER := "clustertemplateinstance.openshift.io/finalizer"

  // Everything the pass undoes before it lets the finalizer go; as long as somebody
  // else's finalizer is there too it does nothing at all.
  function Cleanup(cfg: Config, env: Env, w: Server): (Server, bool) {
    var w1 := Handled(cfg, env, w, GetTemplate);
    if env.finalizers != [CTI_FINALIZER] then (w, false)
    else if !Ok(env, GetTemplate) then (w1, false)
    else
      var (w2, ok2) := if env.templateFound then LeaveAppSets(cfg, env, w1) else (w1, true);
      if !ok2 then (w2, false)
      else
        var (w3, ok3) := LeaveArgo(cfg, env, w2);
        if !ok3 || !cfg.enableManagedCluster then (w3, ok3) else LeaveCluster(cfg, env, w3)
  }

  /** delete: the server afterwards, and whether the finalizer is gone. */
  function DeletePass(cfg: Config, env: Env, w: Server): (Server, bool) {
    var (w1, ok) := Cleanup(cfg, env, w);
    if !ok then (w1, false) else (Handled(cfg, env, w1, RemoveFinalizer), Done(env, RemoveFinalizer))
  }

  // -------- what is gone --------

  ghost predicate NotIn(cfg: Config, w: Server, m: string) {
    !Listed(cfg, w, m)
  }

  ghost predicate NoSecrets(cfg: Config, w: Server) { MySecrets(cfg.Me(), w.argoSecrets) == [] }

  ghost predicate NoClusters(cfg: Config, w: Server) { MyClusters(cfg.Me(), w.clusters) == [] }

  // A step of the delete pass keeps the invariant and brings nothing back.
  ghost predicate Shrinks(cfg: Config, w: Server, n: Server) {
    HubInv(cfg, w) ==>
      && HubInv(cfg, n)
      && (forall m | NotIn(cfg, w, m) :: NotIn(cfg, n, m))
      && (NoSecrets(cfg, w) ==> NoSecrets(cfg, n))
      && (NoClusters(cfg, w) ==> NoClusters(cfg, n))
      && (cfg.Me() in w.kubeconfigs ==> cfg.Me() in n.kubeconfigs)
  }

  lemma ShrinksOn(cfg: Config, a: Server, b: Server, c: Server)
    requires Shrinks(cfg, a, b) && Shrinks(cfg, b, c)
    ensures Shrinks(cfg, a, c)
  {}

  lemma HandledShrinks(cfg: Config, env: Env, w: Server, s: Site)
    ensures Shrinks(cfg, w, Handled(cfg, env, w, s))
  {
    HandledEvolves(cfg, env, w, s);
    var n := Handled(cfg, env, w, s);
    if n != w {
      assert Rely(cfg.Me(), w, n);
    }
  }

  // The server after a write of set `name`.
  function WithSet(w: Server, name: string, a: AppSet): Server {
    w.(rv := w.rv + 1, appSets := w.appSets[name := a])
  }

  lemma PutSetShrinks(cfg: Config, w: Server, name: string, a: AppSet)
    requires a.version == w.rv + 1 && !HasOwn(cfg.Me(), a.generators)
    ensures Shrinks(cfg, w, WithSet(w, name, a)) && NotIn(cfg, WithSet(w, name, a), name)
  {
    hide MyClusters, MySecrets, DistinctClusters, DistinctSecrets, AllPrefixed, Target, HasOwn;
  }

  lemma WriteShrinks(cfg: Config, env: Env, w: Server, name: string, copy: AppSet, s: Site)
    ensures var r := WriteAppSet(cfg.Me(), w, name, copy, Without(cfg.Me(), copy.generators), env.reply(s));
      Shrinks(cfg, w, r.0) && (r.1 ==> NotIn(cfg, r.0, name))
  {
    hide Shrinks, At, Without, HubInv;
    var n := Handled(cfg, env, w, s);
    var a := AppSet(n.rv + 1, copy.template, Without(cfg.Me(), copy.generators));
    HandledShrinks(cfg, env, w, s);
    PutSetShrinks(cfg, n, name, a);
    ShrinksOn(cfg, w, n, WithSet(n, name, a));
  }

  lemma ShrinksSelf(cfg: Config, w: Server, imports: set<string>, klusterlets: set<string>)
    ensures Shrinks(cfg, w, w)
    ensures Shrinks(cfg, w, w.(importSecrets := imports)) && Shrinks(cfg, w, w.(klusterlets := klusterlets))
  {
    hide MyClusters, MySecrets, DistinctClusters, DistinctSecrets, AllPrefixed, Target, HasOwn;
  }

  lemma StaysOut(cfg: Config, w: Server, n: Server, m: string)
    requires HubInv(cfg, w) && Shrinks(cfg, w, n) && NotIn(cfg, w, m)
    ensures NotIn(cfg, n, m)
  {}

  // A removal, together with the set it is about, as seen from an earlier server.
  ghost predicate Clears(cfg: Config, w: Server, r: (Server, bool), m: string) {
    Shrinks(cfg, w, r.0) && (HubInv(cfg, w) && r.1 ==> NotIn(cfg, r.0, m))
  }

  lemma LeaveDay1Clears(cfg: Config, env: Env, w: Server)
    ensures Clears(cfg, w, LeaveDay1(cfg, env, w), cfg.definition)
  {
    var w1 := Handled(cfg, env, w, GetDefinition);
    HandledShrinks(cfg, env, w, GetDefinition);
    if cfg.definition in w1.appSets {
      var copy := w1.appSets[cfg.definition];
      WriteShrinks(cfg, env, w1, cfg.definition, copy, UpdateDefinition);
      ShrinksOn(cfg, w, w1, LeaveDay1(cfg, env, w).0);
    }
    hide At, Without, HubInv, Shrinks, WriteAppSet;
  }

  lemma {:induction false} LeaveRepeatedlyShrinks(cfg: Config, env: Env, w: Server, name: string, copy: AppSet, i: nat,
      count: nat)
    requires i <= count
    ensures var r := LeaveRepeatedly(cfg, env, w, name, copy, i, count);
      Shrinks(cfg, w, r.0) && (i < count && HubInv(cfg, w) && r.1 ==> NotIn(cfg, r.0, name))
    decreases count - i
  {
    ShrinksSelf(cfg, w, {}, {});
    hide At, Without, Shrinks, HubInv, WriteAppSet;
    if i < count {
      var gens := Without(cfg.Me(), copy.generators);
      var (n, ok) := WriteAppSet(cfg.Me(), w, name, copy, gens, env.reply(UpdateSetup(i)));
      WriteShrinks(cfg, env, w, name, copy, UpdateSetup(i));
      if ok && name in n.appSets {
        LeaveRepeatedlyShrinks(cfg, env, n, name, n.appSets[name], i + 1, count);
        var r := LeaveRepeatedly(cfg, env, n, name, n.appSets[name], i + 1, count);
        ShrinksOn(cfg, w, n, r.0);
        OutAfterBoth(cfg, w, n, r.0, name);
      }
    }
  }

  lemma OutAfterBoth(cfg: Config, w: Server, n: Server, r: Server, m: string)
    requires Shrinks(cfg, w, n) && Shrinks(cfg, n, r) && NotIn(cfg, n, m)
    ensures HubInv(cfg, w) ==> NotIn(cfg, r, m)
  {}

  // The last named set is either the one all entries share or not there.
  ghost predicate LastSettled(cfg: Config, f: Fetched) {
    cfg.setups != [] ==>
      var last := cfg.setups[|cfg.setups| - 1];
      (f.last.Some? && f.last.value.0 == last) || NotIn(cfg, f.hub, last)
  }

  lemma {:induction false} FetchSetupsShrinks(cfg: Config, env: Env, w: Server, i: nat, sofar: Fetched)
    requires i <= |cfg.setups| && (sofar.last.Some? ==> sofar.count > 0)
    ensures var f := FetchSetups(cfg, env, w, i, false, sofar);
      && Shrinks(cfg, w, f.hub)
      && (f.ok && f.last.Some? ==> f.count > 0)
      && (f.ok && i < |cfg.setups| && HubInv(cfg, w) ==> LastSettled(cfg, f))
    decreases |cfg.setups| - i
  {
    ShrinksSelf(cfg, w, {}, {});
    hide At, Shrinks, HubInv;
    if i < |cfg.setups| {
      var w1 := Handled(cfg, env, w, GetSetup(i));
      var name := cfg.setups[i];
      HandledShrinks(cfg, env, w, GetSetup(i));
      var next := if name in w1.appSets then Fetched(w1, true, sofar.count + 1, Some((name, w1.appSets[name])))
        else sofar;
      FetchSetupsShrinks(cfg, env, w1, i + 1, next);
      var f := FetchSetups(cfg, env, w1, i + 1, false, next);
      ShrinksOn(cfg, w, w1, f.hub);
      InvAfter(cfg, w, w1);
      if name !in w1.appSets {
        OutAfterBoth(cfg, w, w1, f.hub, name);
      }
    }
  }

  lemma InvAfter(cfg: Config, w: Server, n: Server)
    requires Shrinks(cfg, w, n)
    ensures HubInv(cfg, w) ==> HubInv(cfg, n)
  {}

  lemma LeaveDay2Clears(cfg: Config, env: Env, w: Server)
    requires cfg.setups != []
    ensures Clears(cfg, w, LeaveDay2(cfg, env, w), cfg.setups[|cfg.setups| - 1])
  {
    hide FetchSetups, LeaveRepeatedly, Shrinks, HubInv, NotIn, Handled;
    var last := cfg.setups[|cfg.setups| - 1];
    var f := FetchSetups(cfg, env, w, 0, false, NothingFetched(w));
    FetchSetupsShrinks(cfg, env, w, 0, NothingFetched(w));
    if f.ok && f.last.Some? {
      var l := f.last.value;
      LeaveRepeatedlyShrinks(cfg, env, f.hub, l.0, l.1, 0, f.count);
      var r := LeaveRepeatedly(cfg, env, f.hub, l.0, l.1, 0, f.count);
      ShrinksOn(cfg, w, f.hub, r.0);
      InvAfter(cfg, w, f.hub);
      if NotIn(cfg, f.hub, last) {
        OutAfterBoth(cfg, w, f.hub, r.0, last);
      }
    }
  }

  /** After both AppSet removals succeed, no ApplicationSet at all lists the instance: the
      last setup and the definition are cleared, and no other set ever did. */
  lemma LeaveAppSetsClears(cfg: Config, env: Env, w: Server)
    ensures var r := LeaveAppSets(cfg, env, w);
      Shrinks(cfg, w, r.0) && (HubInv(cfg, w) && r.1 ==> forall m :: NotIn(cfg, r.0, m))
  {
    ShrinksSelf(cfg, w, {}, {});
    var (w1, ok) := if cfg.secretRef.Some? then (w, true) else LeaveDay1(cfg, env, w);
    LeaveDay1Clears(cfg, env, w);
    if ok {
      LeaveDay2Shrinks(cfg, env, w1);
      var r := LeaveDay2(cfg, env, w1);
      ShrinksOn(cfg, w, w1, r.0);
      if HubInv(cfg, w) && r.1 {
        if cfg.setups != [] {
          LeaveDay2Clears(cfg, env, w1);
        }
        InvAfter(cfg, w, r.0);
        InvAfter(cfg, w, w1);
        if cfg.secretRef.None? {
          StaysOut(cfg, w1, r.0, cfg.definition);
        }
        TargetsCleared(cfg, r.0);
      }
    }
    hide Shrinks, HubInv, LeaveDay1, LeaveDay2, NotIn;
  }

  lemma TargetsCleared(cfg: Config, w: Server)
    requires HubInv(cfg, w)
    requires forall m | Target(cfg, m) :: NotIn(cfg, w, m)
    ensures forall m :: NotIn(cfg, w, m)
  {
    forall m ensures NotIn(cfg, w, m) {
      if !Target(cfg, m) {
        assert m in w.appSets ==> !HasOwn(cfg.Me(), w.appSets[m].generators);
      }
    }
  }

  lemma LeaveDay2Shrinks(cfg: Config, env: Env, w: Server)
    ensures Shrinks(cfg, w, LeaveDay2(cfg, env, w).0)
  {
    hide FetchSetups, LeaveRepeatedly, Shrinks, HubInv, NotIn, Handled;
    var f := FetchSetups(cfg, env, w, 0, false, NothingFetched(w));
    FetchSetupsShrinks(cfg, env, w, 0, NothingFetched(w));
    if f.ok && f.last.Some? {
      var l := f.last.value;
      LeaveRepeatedlyShrinks(cfg, env, f.hub, l.0, l.1, 0, f.count);
      ShrinksOn(cfg, w, f.hub, LeaveRepeatedly(cfg, env, f.hub, l.0, l.1, 0, f.count).0);
    }
  }

  // -------- argo secrets --------

  lemma {:induction false} WithoutSecretMine(me: Key, ss: seq<ArgoSecret>, name: string)
    ensures forall x | x in MySecrets(me, WithoutSecret(ss, name)) :: x in MySecrets(me, ss) && x.name != name
  {
    if ss != [] {
      WithoutSecretMine(me, ss[1..], name);
      MySecretsAppend(me, if ss[0].name == name then [] else [ss[0]], WithoutSecret(ss[1..], name));
      assert MySecrets(me, [ss[0]]) == if ss[0].owner == Some(me) then [ss[0]] else [];
    }
  }

  lemma SecretRemovalShrinks(cfg: Config, w: Server, name: string)
    ensures Shrinks(cfg, w, w.(argoSecrets := WithoutSecret(w.argoSecrets, name)))
  {
    WithoutSecretMine(cfg.Me(), w.argoSecrets, name);
    HeadIsMember(MySecrets(cfg.Me(), WithoutSecret(w.argoSecrets, name)));
    if DistinctSecrets(w.argoSecrets) {
      Calls.WithoutSecretDistinct(w.argoSecrets, name);
    }
    hide MyClusters, MySecrets, DistinctClusters, DistinctSecrets, AllPrefixed, Target, HasOwn, WithoutSecret;
  }

  lemma {:induction false} MySecretsDistinct(me: Key, ss: seq<ArgoSecret>)
    requires DistinctSecrets(ss)
    ensures DistinctSecrets(MySecrets(me, ss))
    ensures forall x | x in MySecrets(me, ss) :: x in ss
  {
    if ss != [] {
      MySecretsDistinct(me, ss[1..]);
      var rest := MySecrets(me, ss[1..]);
      forall i | 0 <= i < |rest| ensures rest[i].name != ss[0].name {
        assert rest[i] in ss[1..];
        var j :| 0 <= j < |ss[1..]| && ss[1..][j] == rest[i];
        assert ss[j + 1] == rest[i];
      }
    }
  }

  // Every secret of the instance is still to come in the listing.
  ghost predicate StillListed(cfg: Config, w: Server, listed: seq<ArgoSecret>, i: nat) {
    forall x | x in MySecrets(cfg.Me(), w.argoSecrets) :: exists j :: i <= j < |listed| && listed[j].name == x.name
  }

  lemma HeadIsMember<T>(s: seq<T>)
    ensures s != [] ==> s[0] in s
  {}

  lemma NoneStillListed(cfg: Config, w: Server, listed: seq<ArgoSecret>)
    requires StillListed(cfg, w, listed, |listed|)
    ensures NoSecrets(cfg, w)
  {
    HeadIsMember(MySecrets(cfg.Me(), w.argoSecrets));
  }

  lemma OneLess(cfg: Config, env: Env, w: Server, listed: seq<ArgoSecret>, i: nat)
    requires i < |listed| && StillListed(cfg, w, listed, i)
    ensures var n := Handled(cfg, env, w, DeleteArgoSecret(i));
      StillListed(cfg, n.(argoSecrets := WithoutSecret(n.argoSecrets, listed[i].name)), listed, i + 1)
  {
    var n := Handled(cfg, env, w, DeleteArgoSecret(i));
    assert MySecrets(cfg.Me(), n.argoSecrets) == MySecrets(cfg.Me(), w.argoSecrets);
    WithoutSecretMine(cfg.Me(), n.argoSecrets, listed[i].name);
    hide At, MySecrets, WithoutSecret;
    var n1 := n.(argoSecrets := WithoutSecret(n.argoSecrets, listed[i].name));
    forall x | x in MySecrets(cfg.Me(), n1.argoSecrets)
      ensures exists j :: i + 1 <= j < |listed| && listed[j].name == x.name {
      var j :| i <= j < |listed| && listed[j].name == x.name;
      assert j != i;
    }
  }

  lemma {:induction false} DeleteSecretsClears(cfg: Config, env: Env, w: Server, listed: seq<ArgoSecret>, i: nat)
    requires i <= |listed| && StillListed(cfg, w, listed, i)
    ensures var r := DeleteSecrets(cfg, env, w, listed, i); Shrinks(cfg, w, r.0) && (r.1 ==> NoSecrets(cfg, r.0))
    decreases |listed| - i
  {
    ShrinksSelf(cfg, w, {}, {});
    hide At, Shrinks, HubInv, MySecrets, WithoutSecret, NoSecrets, StillListed;
    if i == |listed| {
      NoneStillListed(cfg, w, listed);
    } else {
      var n := Handled(cfg, env, w, DeleteArgoSecret(i));
      var n1 := n.(argoSecrets := WithoutSecret(n.argoSecrets, listed[i].name));
      HandledShrinks(cfg, env, w, DeleteArgoSecret(i));
      SecretRemovalShrinks(cfg, n, listed[i].name);
      ShrinksOn(cfg, w, n, n1);
      OneLess(cfg, env, w, listed, i);
      DeleteSecretsClears(cfg, env, n1, listed, i + 1);
      ShrinksOn(cfg, w, n1, DeleteSecrets(cfg, env, n1, listed, i + 1).0);
    }
  }

  lemma LeaveArgoClears(cfg: Config, env: Env, w: Server)
    ensures var r := LeaveArgo(cfg, env, w); Shrinks(cfg, w, r.0) && (r.1 ==> NoSecrets(cfg, r.0))
  {
    var w1 := Handled(cfg, env, w, ListArgoSecrets);
    HandledShrinks(cfg, env, w, ListArgoSecrets);
    var listed := MySecrets(cfg.Me(), w1.argoSecrets);
    hide At, Shrinks, HubInv, MySecrets;
    forall x | x in listed ensures exists j :: 0 <= j < |listed| && listed[j].name == x.name {
      var j :| 0 <= j < |listed| && listed[j] == x;
    }
    DeleteSecretsClears(cfg, env, w1, listed, 0);
    ShrinksOn(cfg, w, w1, DeleteSecrets(cfg, env, w1, listed, 0).0);
  }

  // -------- managed cluster --------

  lemma {:induction false} WithoutClusterMine(me: Key, cs: seq<ManagedCluster>, name: string)
    ensures |MyClusters(me, WithoutCluster(cs, name))| <= |MyClusters(me, cs)|
    ensures forall x | x in MyClusters(me, WithoutCluster(cs, name)) :: x in MyClusters(me, cs) && x.name != name
  {
    if cs != [] {
      WithoutClusterMine(me, cs[1..], name);
      MyClustersAppend(me, if cs[0].name == name then [] else [cs[0]], WithoutCluster(cs[1..], name));
      assert MyClusters(me, [cs[0]]) == if Matches(me, cs[0].labels) then [cs[0]] else [];
    }
  }

  lemma ClusterRemovalShrinks(cfg: Config, w: Server, name: string)
    ensures Shrinks(cfg, w, w.(clusters := WithoutCluster(w.clusters, name)))
  {
    var cs, r := MyClusters(cfg.Me(), w.clusters), MyClusters(cfg.Me(), WithoutCluster(w.clusters, name));
    hide MyClusters, MySecrets, DistinctClusters, DistinctSecrets, Target, HasOwn, WithoutCluster, AllPrefixed;
    WithoutClusterMine(cfg.Me(), w.clusters, name);
    if DistinctClusters(w.clusters) {
      Calls.WithoutClusterDistinct(w.clusters, name);
    }
    if AllPrefixed(cs) {
      PrefixedStay(cs, r);
    }
  }

  /** With at most one cluster labelled for the instance, deleting the one that was found,
      by its name and whether or not it is still the same, leaves none. */
  lemma RemovalLeavesNone(cfg: Config, w: Server, n: Server, mc: ManagedCluster)
    requires HubInv(cfg, w) && mc in MyClusters(cfg.Me(), w.clusters)
    requires Thins(MyClusters(cfg.Me(), w.clusters), MyClusters(cfg.Me(), n.clusters))
    ensures NoClusters(cfg, n.(clusters := WithoutCluster(n.clusters, mc.name)))
  {
    var r := MyClusters(cfg.Me(), WithoutCluster(n.clusters, mc.name));
    WithoutClusterMine(cfg.Me(), n.clusters, mc.name);
    assert MyClusters(cfg.Me(), w.clusters) == [mc];
    HeadIsMember(r);
  }

  lemma HandledThins(cfg: Config, env: Env, w: Server, s: Site)
    ensures Thins(MyClusters(cfg.Me(), w.clusters), MyClusters(cfg.Me(), Handled(cfg, env, w, s).clusters))
  {
    hide MyClusters, Own, MySecrets, ServerOk;
  }

  lemma DeleteAddonsThins(cfg: Config, env: Env, w: Server, name: string)
    ensures Thins(MyClusters(cfg.Me(), w.clusters), MyClusters(cfg.Me(), DeleteAddons(cfg, env, w, name).0.clusters))
  {
    hide MyClusters, Handled;
    var w1 := if cfg.enableKlusterlet then Handled(cfg, env, w, DeleteKlusterlet) else w;
    var w2 := if cfg.enableKlusterlet && Done(env, DeleteKlusterlet) then w1.(klusterlets := w1.klusterlets - {name})
      else w1;
    HandledThins(cfg, env, w, DeleteKlusterlet);
    HandledThins(cfg, env, w2, DeleteImportSecret);
  }

  lemma DeleteAddonsShrinks(cfg: Config, env: Env, w: Server, name: string)
    ensures Shrinks(cfg, w, DeleteAddons(cfg, env, w, name).0)
  {
    var w1 := if cfg.enableKlusterlet then Handled(cfg, env, w, DeleteKlusterlet) else w;
    var w2 := if cfg.enableKlusterlet && Done(env, DeleteKlusterlet) then w1.(klusterlets := w1.klusterlets - {name})
      else w1;
    var w3 := Handled(cfg, env, w2, DeleteImportSecret);
    hide Shrinks, HubInv, MyClusters, Handled;
    ShrinksSelf(cfg, w, {}, {});
    HandledShrinks(cfg, env, w, DeleteKlusterlet);
    ShrinksSelf(cfg, w1, {}, w1.klusterlets - {name});
    ShrinksOn(cfg, w, w1, w2);
    HandledShrinks(cfg, env, w2, DeleteImportSecret);
    ShrinksOn(cfg, w, w2, w3);
    ShrinksSelf(cfg, w3, w3.importSecrets - {name}, {});
    ShrinksOn(cfg, w, w3, w3.(importSecrets := w3.importSecrets - {name}));
  }

  // The end of LeaveCluster, once the addons are gone.
  lemma LastRemovalClears(cfg: Config, env: Env, w: Server, mc: ManagedCluster)
    ensures var w2 := DeleteAddons(cfg, env, w, mc.name).0;
      var w3 := Handled(cfg, env, w2, DeleteCluster);
      var w4 := w3.(clusters := WithoutCluster(w3.clusters, mc.name));
      && Shrinks(cfg, w, w2) && Shrinks(cfg, w, w3) && Shrinks(cfg, w, w4)
      && (HubInv(cfg, w) && mc in MyClusters(cfg.Me(), w.clusters) ==> NoClusters(cfg, w4))
  {
    hide Shrinks, HubInv, MyClusters, DeleteAddons, WithoutCluster, NoClusters, Handled;
    var w2 := DeleteAddons(cfg, env, w, mc.name).0;
    var w3 := Handled(cfg, env, w2, DeleteCluster);
    DeleteAddonsShrinks(cfg, env, w, mc.name);
    DeleteAddonsThins(cfg, env, w, mc.name);
    HandledShrinks(cfg, env, w2, DeleteCluster);
    HandledThins(cfg, env, w2, DeleteCluster);
    ShrinksOn(cfg, w, w2, w3);
    ClusterRemovalShrinks(cfg, w3, mc.name);
    ShrinksOn(cfg, w, w3, w3.(clusters := WithoutCluster(w3.clusters, mc.name)));
    if HubInv(cfg, w) && mc in MyClusters(cfg.Me(), w.clusters) {
      RemovalLeavesNone(cfg, w, w3, mc);
    }
  }

  lemma LeaveClusterClears(cfg: Config, env: Env, w: Server)
    ensures var r := LeaveCluster(cfg, env, w); Shrinks(cfg, w, r.0) && (HubInv(cfg, w) && r.1 ==> NoClusters(cfg, r.0))
  {
    hide Handled, Shrinks, HubInv, MyClusters, FirstCluster, DeleteAddons, WithoutCluster, NoClusters, NameTaken;
    var me := cfg.Me();
    var w1 := Handled(cfg, env, w, ListForDelete);
    HandledShrinks(cfg, env, w, ListForDelete);
    InvAfter(cfg, w, w1);
    var mc := FirstCluster(me, w1.clusters);
    if mc == None {
      if HubInv(cfg, w) {
        NoneFound(cfg, w1);
      }
    } else {
      LastRemovalClears(cfg, env, w1, mc.value);
      var w2 := DeleteAddons(cfg, env, w1, mc.value.name).0;
      var w3 := Handled(cfg, env, w2, DeleteCluster);
      ShrinksOn(cfg, w, w1, w2);
      ShrinksOn(cfg, w, w1, w3);
      ShrinksOn(cfg, w, w1, w3.(clusters := WithoutCluster(w3.clusters, mc.value.name)));
    }
  }

  lemma NoneFound(cfg: Config, w: Server)
    requires HubInv(cfg, w) && FirstCluster(cfg.Me(), w.clusters) == None
    ensures NoClusters(cfg, w)
  {
    FirstClusterIsHead(cfg.Me(), w.clusters);
  }

  // Nothing of the instance is left that a delete pass is responsible for.
  ghost predicate AllGone(cfg: Config, w: Server) {
    && (forall m :: NotIn(cfg, w, m))
    && NoSecrets(cfg, w)
    && (cfg.enableManagedCluster ==> NoClusters(cfg, w))
  }

  // The same, should the template have been missing: its AppSets were not looked at.
  ghost predicate RestGone(cfg: Config, w: Server) {
    NoSecrets(cfg, w) && (cfg.enableManagedCluster ==> NoClusters(cfg, w))
  }

  lemma CleanupClears(cfg: Config, env: Env, w: Server)
    requires HubInv(cfg, w)
    ensures var r := Cleanup(cfg, env, w);
      && Shrinks(cfg, w, r.0)
      && (r.1 ==> RestGone(cfg, r.0))
      && (r.1 && env.templateFound ==> AllGone(cfg, r.0))
  {
    hide Handled, Shrinks, HubInv, LeaveAppSets, LeaveArgo, LeaveCluster, NotIn, NoSecrets, NoClusters;
    var w1 := Handled(cfg, env, w, GetTemplate);
    ShrinksSelf(cfg, w, {}, {});
    HandledShrinks(cfg, env, w, GetTemplate);
    InvAfter(cfg, w, w1);
    var (w2, ok2) := if env.templateFound then LeaveAppSets(cfg, env, w1) else (w1, true);
    ShrinksSelf(cfg, w1, {}, {});
    LeaveAppSetsClears(cfg, env, w1);
    ShrinksOn(cfg, w, w1, w2);
    InvAfter(cfg, w, w2);
    var (w3, ok3) := LeaveArgo(cfg, env, w2);
    LeaveArgoClears(cfg, env, w2);
    ShrinksOn(cfg, w, w2, w3);
    InvAfter(cfg, w, w3);
    var (w4, ok4) := LeaveCluster(cfg, env, w3);
    LeaveClusterClears(cfg, env, w3);
    ShrinksOn(cfg, w, w3, w4);
    GoneStays(cfg, w2, w3, w4);
  }

  lemma KubeconfigStays(cfg: Config, w: Server, n: Server)
    requires HubInv(cfg, w) && Shrinks(cfg, w, n)
    ensures cfg.Me() in w.kubeconfigs ==> cfg.Me() in n.kubeconfigs
  {}

  lemma GoneStays(cfg: Config, w2: Server, w3: Server, w4: Server)
    requires HubInv(cfg, w2) && HubInv(cfg, w3) && Shrinks(cfg, w2, w3) && Shrinks(cfg, w3, w4)
    ensures (forall m :: NotIn(cfg, w2, m)) ==> (forall m :: NotIn(cfg, w3, m)) && (forall m :: NotIn(cfg, w4, m))
    ensures NoSecrets(cfg, w3) ==> NoSecrets(cfg, w4)
  {
    if forall m :: NotIn(cfg, w2, m) {
      forall m ensures NotIn(cfg, w3, m) && NotIn(cfg, w4, m) {
        assert NotIn(cfg, w2, m);
      }
    }
  }

  /** The pass that removes the finalizer while the template is still there leaves no
      generator of the instance in any ApplicationSet, no argo secret of it and, where
      managed clusters are enabled, no managed cluster of it, whatever earlier passes
      left half-done and whatever the others did between its calls. The credentials stay.
      Its two lists are those of the present server; what older ones do is in Lagging. */
  lemma DeletePassClears(cfg: Config, env: Env, w: Server)
    requires HubInv(cfg, w)
    ensures var r := DeletePass(cfg, env, w);
      && HubInv(cfg, r.0)
      && (cfg.Me() in w.kubeconfigs ==> cfg.Me() in r.0.kubeconfigs)
      && (r.1 ==> RestGone(cfg, r.0))
      && (r.1 && env.templateFound ==> AllGone(cfg, r.0))
  {
    var (w1, ok) := Cleanup(cfg, env, w);
    CleanupClears(cfg, env, w);
    InvAfter(cfg, w, w1);
    var w2 := Handled(cfg, env, w1, RemoveFinalizer);
    HandledShrinks(cfg, env, w1, RemoveFinalizer);
    InvAfter(cfg, w1, w2);
    KubeconfigStays(cfg, w, w1);
    KubeconfigStays(cfg, w1, w2);
    ShrinksSelf(cfg, w2, {}, {});
    GoneStays(cfg, w1, w2, w2);
    assert NoSecrets(cfg, w1) ==> NoSecrets(cfg, w2);
    assert NoClusters(cfg, w1) ==> NoClusters(cfg, w2);
    hide At, Shrinks, HubInv, Cleanup, NotIn, NoSecrets, NoClusters;
  }
}
