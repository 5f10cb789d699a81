/** A delete pass as the list of its API calls. */
module DeletionCalls {
  import opened Generators
  import opened Conditions
  import opened Hub
  import opened Lifecycle
  import opened Deletion
  import opened Calls

  // -------- ApplicationSets --------

  function LeaveCalls(cfg: Config, env: Env, w: Server, name: string, copy: AppSet, s: Site): seq<Call> {
    Wrote(cfg, env, w, s, if Takes(cfg, env, w, name, copy, s) then Leave(name) else Nothing)
  }

  function Left(cfg: Config, env: Env, w: Server, name: string, copy: AppSet, s: Site): (Server, bool) {
    WriteAppSet(cfg.Me(), w, name, copy, Without(cfg.Me(), copy.generators), env.reply(s))
  }

  lemma LeaveLeads(cfg: Config, env: Env, w: Server, name: string, copy: AppSet, s: Site)
    requires ServerOk(w) && CopyOf(w, name, copy)
    ensures Leads(cfg, Deleting, w, LeaveCalls(cfg, env, w, name, copy, s), Left(cfg, env, w, name, copy, s).0)
    ensures var n := Left(cfg, env, w, name, copy, s).0; name in n.appSets ==> CopyOf(n, name, n.appSets[name])
  {
    hide Trace, ServerOk, Rely, Own, Without, Handled;
    var n := Handled(cfg, env, w, s);
    HandledIsRely(cfg, env, w, s);
    CopyStays(cfg.Me(), w, n, name, copy);
    var x := if Takes(cfg, env, w, name, copy, s) then Leave(name) else Nothing;
    WroteLeads(cfg, env, Deleting, w, s, x);
    assert Left(cfg, env, w, name, copy, s).0 == Apply(cfg, n, x) by {
      SameHandled(cfg, env, w, s);
    }
    if name in Apply(cfg, n, x).appSets {
      CopyTaken(Apply(cfg, n, x), name);
    }
  }

  function LeaveDay1Calls(cfg: Config, env: Env, w: Server): seq<Call> {
    var w1 := Handled(cfg, env, w, GetDefinition);
    Read(cfg, env, w, GetDefinition) +
    if cfg.definition !in w1.appSets || !Ok(env, GetDefinition) then []
    else LeaveCalls(cfg, env, w1, cfg.definition, w1.appSets[cfg.definition], UpdateDefinition)
  }

  lemma LeaveDay1Leads(cfg: Config, env: Env, w: Server)
    requires ServerOk(w)
    ensures Leads(cfg, Deleting, w, LeaveDay1Calls(cfg, env, w), LeaveDay1(cfg, env, w).0)
  {
    hide Leads, ServerOk, CopyOf, LeaveCalls, WriteAppSet, Handled, Read;
    var w1 := Handled(cfg, env, w, GetDefinition);
    ReadOnly(cfg, env, Deleting, w, GetDefinition);
    if cfg.definition in w1.appSets {
      var copy := w1.appSets[cfg.definition];
      CopyTaken(w1, cfg.definition);
      LeaveLeads(cfg, env, w1, cfg.definition, copy, UpdateDefinition);
      ReadThen(cfg, env, Deleting, w, GetDefinition, LeaveCalls(cfg, env, w1, cfg.definition, copy, UpdateDefinition),
        Left(cfg, env, w1, cfg.definition, copy, UpdateDefinition).0);
    }
  }

  function RepeatedCalls(cfg: Config, env: Env, w: Server, name: string, copy: AppSet, i: nat, count: nat): seq<Call>
    requires i <= count
    decreases count - i
  {
    if i == count then []
    else
      var (n, ok) := Left(cfg, env, w, name, copy, UpdateSetup(i));
      LeaveCalls(cfg, env, w, name, copy, UpdateSetup(i)) +
      if !ok || name !in n.appSets then [] else RepeatedCalls(cfg, env, n, name, n.appSets[name], i + 1, count)
  }

  lemma {:induction false} RepeatedLeads(cfg: Config, env: Env, w: Server, name: string, copy: AppSet, i: nat,
      count: nat)
    requires ServerOk(w) && CopyOf(w, name, copy) && i <= count
    ensures Leads(cfg, Deleting, w, RepeatedCalls(cfg, env, w, name, copy, i, count),
                  LeaveRepeatedly(cfg, env, w, name, copy, i, count).0)
    decreases count - i
  {
    hide Trace, ServerOk, CopyOf, LeaveCalls, WriteAppSet;
    NoCalls(cfg, Deleting, w);
    if i < count {
      var (n, ok) := Left(cfg, env, w, name, copy, UpdateSetup(i));
      LeaveLeads(cfg, env, w, name, copy, UpdateSetup(i));
      NoCalls(cfg, Deleting, n);
      if ok && name in n.appSets {
        RepeatedLeads(cfg, env, n, name, n.appSets[name], i + 1, count);
      }
      LeadsOn(cfg, Deleting, w, LeaveCalls(cfg, env, w, name, copy, UpdateSetup(i)), n,
        if !ok || name !in n.appSets then [] else RepeatedCalls(cfg, env, n, name, n.appSets[name], i + 1, count),
        LeaveRepeatedly(cfg, env, w, name, copy, i, count).0);
    }
  }

  function LeaveDay2Calls(cfg: Config, env: Env, w: Server): seq<Call> {
    var f := FetchSetups(cfg, env, w, 0, false, NothingFetched(w));
    FetchCalls(cfg, env, w, 0, false) +
    if !f.ok || f.last == None then [] else RepeatedCalls(cfg, env, f.hub, f.last.value.0, f.last.value.1, 0, f.count)
  }

  lemma LeaveDay2Leads(cfg: Config, env: Env, w: Server)
    requires ServerOk(w)
    ensures Leads(cfg, Deleting, w, LeaveDay2Calls(cfg, env, w), LeaveDay2(cfg, env, w).0)
  {
    hide Trace, ServerOk, CopyOf, FetchCalls, FetchSetups, RepeatedCalls, LeaveRepeatedly;
    var f := FetchSetups(cfg, env, w, 0, false, NothingFetched(w));
    FetchLeads(cfg, env, Deleting, w, 0, false, NothingFetched(w));
    NoCalls(cfg, Deleting, f.hub);
    LeadsOn(cfg, Deleting, w, FetchCalls(cfg, env, w, 0, false), f.hub, [], f.hub);
    if f.last.Some? {
      var l := f.last.value;
      RepeatedLeads(cfg, env, f.hub, l.0, l.1, 0, f.count);
      LeadsOn(cfg, Deleting, w, FetchCalls(cfg, env, w, 0, false), f.hub,
        RepeatedCalls(cfg, env, f.hub, l.0, l.1, 0, f.count),
        LeaveRepeatedly(cfg, env, f.hub, l.0, l.1, 0, f.count).0);
    }
  }

  function LeaveAppSetsCalls(cfg: Config, env: Env, w: Server): seq<Call> {
    if cfg.secretRef.Some? then LeaveDay2Calls(cfg, env, w)
    else
      var (w1, ok) := LeaveDay1(cfg, env, w);
      LeaveDay1Calls(cfg, env, w) + if !ok then [] else LeaveDay2Calls(cfg, env, w1)
  }

  lemma LeaveAppSetsLeads(cfg: Config, env: Env, w: Server)
    requires ServerOk(w)
    ensures Leads(cfg, Deleting, w, LeaveAppSetsCalls(cfg, env, w), LeaveAppSets(cfg, env, w).0)
  {
    hide Trace, ServerOk, LeaveDay1Calls, LeaveDay1, LeaveDay2Calls, LeaveDay2;
    LeaveDay2Leads(cfg, env, w);
    if cfg.secretRef.None? {
      var (w1, ok) := LeaveDay1(cfg, env, w);
      LeaveDay1Leads(cfg, env, w);
      NoCalls(cfg, Deleting, w1);
      LeaveDay2Leads(cfg, env, w1);
      LeadsOn(cfg, Deleting, w, LeaveDay1Calls(cfg, env, w), w1, if !ok then [] else LeaveDay2Calls(cfg, env, w1),
        LeaveAppSets(cfg, env, w).0);
    }
  }

  // -------- argo secrets --------

  lemma {:induction false} MineIsThere(me: Key, ss: seq<ArgoSecret>, x: ArgoSecret)
    ensures x in MySecrets(me, ss) <==> x in ss && x.owner == Some(me)
  {
    if ss != [] {
      MineIsThere(me, ss[1..], x);
    }
  }

  lemma {:induction false} OthersSurvive(ss: seq<ArgoSecret>, name: string, x: ArgoSecret)
    requires x in ss && x.name != name
    ensures x in WithoutSecret(ss, name)
  {
    if ss[0] != x {
      OthersSurvive(ss[1..], name, x);
    }
  }

  // The rest of the listing is still there and still the instance's.
  ghost predicate StillMine(me: Key, w: Server, listed: seq<ArgoSecret>, k: nat) {
    forall j | k <= j < |listed| :: listed[j] in MySecrets(me, w.argoSecrets)
  }

  lemma StillMineOn(me: Key, w: Server, n: Server, listed: seq<ArgoSecret>, k: nat)
    requires k < |listed| && StillMine(me, w, listed, k) && DistinctSecrets(listed) && Rely(me, w, n)
    ensures listed[k] in MySecrets(me, n.argoSecrets) && SecretNamed(n.argoSecrets, listed[k].name)
    ensures StillMine(me, n.(argoSecrets := WithoutSecret(n.argoSecrets, listed[k].name)), listed, k + 1)
  {
    assert MySecrets(me, n.argoSecrets) == MySecrets(me, w.argoSecrets);
    hide MySecrets, WithoutSecret, Rely;
    MineIsThere(me, n.argoSecrets, listed[k]);
    var a :| 0 <= a < |n.argoSecrets| && n.argoSecrets[a] == listed[k];
    var m := WithoutSecret(n.argoSecrets, listed[k].name);
    forall j | k + 1 <= j < |listed| ensures listed[j] in MySecrets(me, m) {
      MineIsThere(me, n.argoSecrets, listed[j]);
      OthersSurvive(n.argoSecrets, listed[k].name, listed[j]);
      MineIsThere(me, m, listed[j]);
    }
  }

  // The call of round i, and the server after it.
  function DropChange(env: Env, listed: seq<ArgoSecret>, i: nat): Change
    requires i < |listed|
  {
    if Done(env, DeleteArgoSecret(i)) then DropArgoSecret(listed[i]) else Nothing
  }

  function DeleteSecretsCalls(cfg: Config, env: Env, w: Server, listed: seq<ArgoSecret>, i: nat): seq<Call>
    requires i <= |listed|
    decreases |listed| - i
  {
    if i == |listed| then []
    else
      var x := DropChange(env, listed, i);
      Wrote(cfg, env, w, DeleteArgoSecret(i), x) +
      if !Ok(env, DeleteArgoSecret(i)) then []
      else DeleteSecretsCalls(cfg, env, Apply(cfg, Handled(cfg, env, w, DeleteArgoSecret(i)), x), listed, i + 1)
  }

  lemma {:induction false} DeleteSecretsLead(cfg: Config, env: Env, w: Server, listed: seq<ArgoSecret>, i: nat)
    requires ServerOk(w) && i <= |listed| && DistinctSecrets(listed) && StillMine(cfg.Me(), w, listed, i)
    ensures Leads(cfg, Deleting, w, DeleteSecretsCalls(cfg, env, w, listed, i), DeleteSecrets(cfg, env, w, listed, i).0)
    decreases |listed| - i
  {
    hide Trace, ServerOk, Rely, MySecrets, WithoutSecret, SecretNamed, DistinctSecrets, StillMine, Handled, Wrote;
    NoCalls(cfg, Deleting, w);
    if i < |listed| {
      var n := Handled(cfg, env, w, DeleteArgoSecret(i));
      var x := DropChange(env, listed, i);
      HandledIsRely(cfg, env, w, DeleteArgoSecret(i));
      StillMineOn(cfg.Me(), w, n, listed, i);
      WroteLeads(cfg, env, Deleting, w, DeleteArgoSecret(i), x);
      var m := Apply(cfg, n, x);
      NoCalls(cfg, Deleting, m);
      if Ok(env, DeleteArgoSecret(i)) {
        DeleteSecretsLead(cfg, env, m, listed, i + 1);
      }
      LeadsOn(cfg, Deleting, w, Wrote(cfg, env, w, DeleteArgoSecret(i), x), m,
        if !Ok(env, DeleteArgoSecret(i)) then [] else DeleteSecretsCalls(cfg, env, m, listed, i + 1),
        DeleteSecrets(cfg, env, w, listed, i).0);
    }
  }

  function LeaveArgoCalls(cfg: Config, env: Env, w: Server): seq<Call> {
    var w1 := Handled(cfg, env, w, ListArgoSecrets);
    Read(cfg, env, w, ListArgoSecrets) +
    if !Ok(env, ListArgoSecrets) then [] else DeleteSecretsCalls(cfg, env, w1, MySecrets(cfg.Me(), w1.argoSecrets), 0)
  }

  lemma LeaveArgoLeads(cfg: Config, env: Env, w: Server)
    requires ServerOk(w)
    ensures Leads(cfg, Deleting, w, LeaveArgoCalls(cfg, env, w), LeaveArgo(cfg, env, w).0)
  {
    var w1 := Handled(cfg, env, w, ListArgoSecrets);
    ReadOnly(cfg, env, Deleting, w, ListArgoSecrets);
    var listed := MySecrets(cfg.Me(), w1.argoSecrets);
    MySecretsDistinct(cfg.Me(), w1.argoSecrets);
    assert StillMine(cfg.Me(), w1, listed, 0);
    hide Leads, Rely, Handled, Read, MySecrets, DistinctSecrets, DistinctClusters, StillMine, DeleteSecrets,
      DeleteSecretsCalls;
    DeleteSecretsLead(cfg, env, w1, listed, 0);
    ReadThen(cfg, env, Deleting, w, ListArgoSecrets, DeleteSecretsCalls(cfg, env, w1, listed, 0),
      DeleteSecrets(cfg, env, w1, listed, 0).0);
  }

  // -------- managed cluster --------

  function DropImportCalls(cfg: Config, env: Env, w: Server, name: string): seq<Call> {
    Wrote(cfg, env, w, DeleteImportSecret, if Done(env, DeleteImportSecret) then DropImportSecret(name) else Nothing)
  }

  function DeleteAddonsCalls(cfg: Config, env: Env, w: Server, name: string): seq<Call> {
    if !cfg.enableKlusterlet then DropImportCalls(cfg, env, w, name)
    else
      var x := if Done(env, DeleteKlusterlet) then DropKlusterlet(name) else Nothing;
      Wrote(cfg, env, w, DeleteKlusterlet, x) +
      if !Ok(env, DeleteKlusterlet) then []
      else DropImportCalls(cfg, env, Apply(cfg, Handled(cfg, env, w, DeleteKlusterlet), x), name)
  }

  lemma DeleteAddonsLead(cfg: Config, env: Env, w: Server, name: string)
    requires ServerOk(w)
    ensures Leads(cfg, Deleting, w, DeleteAddonsCalls(cfg, env, w, name), DeleteAddons(cfg, env, w, name).0)
  {
    hide Trace, ServerOk, Handled, Wrote;
    WroteLeads(cfg, env, Deleting, w, DeleteImportSecret,
      if Done(env, DeleteImportSecret) then DropImportSecret(name) else Nothing);
    if cfg.enableKlusterlet {
      var x := if Done(env, DeleteKlusterlet) then DropKlusterlet(name) else Nothing;
      WroteLeads(cfg, env, Deleting, w, DeleteKlusterlet, x);
      var m := Apply(cfg, Handled(cfg, env, w, DeleteKlusterlet), x);
      NoCalls(cfg, Deleting, m);
      WroteLeads(cfg, env, Deleting, m, DeleteImportSecret,
        if Done(env, DeleteImportSecret) then DropImportSecret(name) else Nothing);
      LeadsOn(cfg, Deleting, w, Wrote(cfg, env, w, DeleteKlusterlet, x), m,
        if !Ok(env, DeleteKlusterlet) then [] else DropImportCalls(cfg, env, m, name),
        DeleteAddons(cfg, env, w, name).0);
    }
  }

  function DropClusterChange(cfg: Config, env: Env, w: Server, mc: ManagedCluster): Change {
    if Done(env, DeleteCluster) && NameTaken(Handled(cfg, env, w, DeleteCluster).clusters, mc.name)
      then DropCluster(mc) else Nothing
  }

  function LeaveClusterCalls(cfg: Config, env: Env, w: Server): seq<Call> {
    var w1 := Handled(cfg, env, w, ListForDelete);
    var mc := FirstCluster(cfg.Me(), w1.clusters);
    Read(cfg, env, w, ListForDelete) +
    if !Ok(env, ListForDelete) || mc == None then []
    else
      var (w2, ok) := DeleteAddons(cfg, env, w1, mc.value.name);
      DeleteAddonsCalls(cfg, env, w1, mc.value.name) +
      if !ok then [] else Wrote(cfg, env, w2, DeleteCluster, DropClusterChange(cfg, env, w2, mc.value))
  }

  lemma DropClusterLeads(cfg: Config, env: Env, w: Server, mc: ManagedCluster)
    requires ServerOk(w) && Matches(cfg.Me(), mc.labels) && HasClusterPrefix(mc.name)
    ensures var x := DropClusterChange(cfg, env, w, mc);
      Leads(cfg, Deleting, w, Wrote(cfg, env, w, DeleteCluster, x), Apply(cfg, Handled(cfg, env, w, DeleteCluster), x))
  {
    hide Trace, ServerOk, Rely, Handled, Wrote, Matches, NameTaken, Apply;
    WroteLeads(cfg, env, Deleting, w, DeleteCluster, DropClusterChange(cfg, env, w, mc));
  }

  lemma LeaveClusterLeads(cfg: Config, env: Env, w: Server)
    requires ServerOk(w)
    ensures Leads(cfg, Deleting, w, LeaveClusterCalls(cfg, env, w), LeaveCluster(cfg, env, w).0)
  {
    hide Trace, ServerOk, Handled, Read, Wrote, MyClusters, FirstCluster, NameTaken, DeleteAddons, DeleteAddonsCalls,
      WithoutCluster;
    var w1 := Handled(cfg, env, w, ListForDelete);
    var mc := FirstCluster(cfg.Me(), w1.clusters);
    ReadOnly(cfg, env, Deleting, w, ListForDelete);
    if mc.Some? {
      var (w2, ok) := DeleteAddons(cfg, env, w1, mc.value.name);
      DeleteAddonsLead(cfg, env, w1, mc.value.name);
      NoCalls(cfg, Deleting, w2);
      DropClusterLeads(cfg, env, w2, mc.value);
      var x := DropClusterChange(cfg, env, w2, mc.value);
      var rest := if !ok then [] else Wrote(cfg, env, w2, DeleteCluster, x);
      var n := if !ok then w2 else Apply(cfg, Handled(cfg, env, w2, DeleteCluster), x);
      LeadsOn(cfg, Deleting, w1, DeleteAddonsCalls(cfg, env, w1, mc.value.name), w2, rest, n);
      ReadThen(cfg, env, Deleting, w, ListForDelete, DeleteAddonsCalls(cfg, env, w1, mc.value.name) + rest, n);
    }
  }

  // -------- the whole pass --------

  // What follows once the ApplicationSets are done with.
  function RestCalls(cfg: Config, env: Env, w: Server): seq<Call> {
    var (w1, ok) := LeaveArgo(cfg, env, w);
    LeaveArgoCalls(cfg, env, w) + if !ok || !cfg.enableManagedCluster then [] else LeaveClusterCalls(cfg, env, w1)
  }

  function Rest(cfg: Config, env: Env, w: Server): Server {
    var (w1, ok) := LeaveArgo(cfg, env, w);
    if !ok || !cfg.enableManagedCluster then w1 else LeaveCluster(cfg, env, w1).0
  }

  lemma RestLeads(cfg: Config, env: Env, w: Server)
    requires ServerOk(w)
    ensures Leads(cfg, Deleting, w, RestCalls(cfg, env, w), Rest(cfg, env, w))
  {
    hide Trace, ServerOk, LeaveArgoCalls, LeaveArgo, LeaveClusterCalls, LeaveCluster;
    var (w1, ok) := LeaveArgo(cfg, env, w);
    LeaveArgoLeads(cfg, env, w);
    NoCalls(cfg, Deleting, w1);
    LeaveClusterLeads(cfg, env, w1);
    LeadsOn(cfg, Deleting, w, LeaveArgoCalls(cfg, env, w), w1,
      if !ok || !cfg.enableManagedCluster then [] else LeaveClusterCalls(cfg, env, w1), Rest(cfg, env, w));
  }

  function CleanupCalls(cfg: Config, env: Env, w: Server): seq<Call> {
    if env.finalizers != [CTI_FINALIZER] then []
    else
      var w1 := Handled(cfg, env, w, GetTemplate);
      Read(cfg, env, w, GetTemplate) +
      if !Ok(env, GetTemplate) then []
      else if !env.templateFound then RestCalls(cfg, env, w1)
      else
        var (w2, ok) := LeaveAppSets(cfg, env, w1);
        LeaveAppSetsCalls(cfg, env, w1) + if !ok then [] else RestCalls(cfg, env, w2)
  }

  lemma CleanupLeads(cfg: Config, env: Env, w: Server)
    requires ServerOk(w)
    ensures Leads(cfg, Deleting, w, CleanupCalls(cfg, env, w), Cleanup(cfg, env, w).0)
  {
    hide Trace, ServerOk, Handled, Read, RestCalls, LeaveAppSets, LeaveAppSetsCalls, LeaveArgo, LeaveCluster;
    NoCalls(cfg, Deleting, w);
    var w1 := Handled(cfg, env, w, GetTemplate);
    ReadOnly(cfg, env, Deleting, w, GetTemplate);
    RestLeads(cfg, env, w1);
    ReadThen(cfg, env, Deleting, w, GetTemplate, RestCalls(cfg, env, w1), Rest(cfg, env, w1));
    var (w2, ok) := LeaveAppSets(cfg, env, w1);
    LeaveAppSetsLeads(cfg, env, w1);
    NoCalls(cfg, Deleting, w2);
    RestLeads(cfg, env, w2);
    var rest, n := if !ok then [] else RestCalls(cfg, env, w2), if !ok then w2 else Rest(cfg, env, w2);
    LeadsOn(cfg, Deleting, w1, LeaveAppSetsCalls(cfg, env, w1), w2, rest, n);
    ReadThen(cfg, env, Deleting, w, GetTemplate, LeaveAppSetsCalls(cfg, env, w1) + rest, n);
  }

  /** The calls of a delete pass, in their order. */
  function DeletePassCalls(cfg: Config, env: Env, w: Server): seq<Call> {
    var (w1, ok) := Cleanup(cfg, env, w);
    CleanupCalls(cfg, env, w) + if !ok then [] else Read(cfg, env, w1, RemoveFinalizer)
  }

  /** A delete pass is its calls: they lead from where it starts to where it ends. */
  lemma DeletePassLeads(cfg: Config, env: Env, w: Server)
    requires ServerOk(w)
    ensures Leads(cfg, Deleting, w, DeletePassCalls(cfg, env, w), DeletePass(cfg, env, w).0)
  {
    hide Trace, ServerOk, Handled, Read, CleanupCalls, Cleanup;
    var (w1, ok) := Cleanup(cfg, env, w);
    CleanupLeads(cfg, env, w);
    NoCalls(cfg, Deleting, w1);
    ReadOnly(cfg, env, Deleting, w1, RemoveFinalizer);
    LeadsOn(cfg, Deleting, w, CleanupCalls(cfg, env, w), w1, if !ok then [] else Read(cfg, env, w1, RemoveFinalizer),
      DeletePass(cfg, env, w).0);
  }
}
