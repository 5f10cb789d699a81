/** That a delete pass whose calls all succeed does let the finalizer go, and what it
    leaves behind when the template is already gone. */
module Release {
  import opened Generators
  import opened Conditions
  import opened Hub
  import opened Lifecycle
  import opened HubInvariants
  import opened Deletion
  import opened Convergence

  lemma CalmWrite(cfg: Config, env: Env, w: Server, name: string, gens: seq<Generator>, s: Site)
    requires Calm(env) && name in w.appSets
    ensures WriteAppSet(cfg.Me(), w, name, w.appSets[name], gens, env.reply(s)) ==
      (w.(rv := w.rv + 1, appSets := w.appSets[name := AppSet(w.rv + 1, w.appSets[name].template, gens)]), true)
  {}

  lemma {:induction false} CalmRepeated(cfg: Config, env: Env, w: Server, name: string, i: nat, count: nat)
    requires Calm(env) && i <= count && name in w.appSets
    ensures var r := LeaveRepeatedly(cfg, env, w, name, w.appSets[name], i, count);
      r.1 && r.0 == w.(rv := r.0.rv, appSets := r.0.appSets)
    decreases count - i
  {
    hide Without, WriteAppSet;
    if i < count {
      var gens := Without(cfg.Me(), w.appSets[name].generators);
      CalmWrite(cfg, env, w, name, gens, UpdateSetup(i));
      var n := w.(rv := w.rv + 1, appSets := w.appSets[name := AppSet(w.rv + 1, w.appSets[name].template, gens)]);
      CalmRepeated(cfg, env, n, name, i + 1, count);
    }
  }

  lemma CalmLeaveAppSets(cfg: Config, env: Env, w: Server)
    requires Calm(env)
    ensures var r := LeaveAppSets(cfg, env, w); r.1 && r.0 == w.(rv := r.0.rv, appSets := r.0.appSets)
  {
    var w1 := if cfg.secretRef.Some? then w else LeaveDay1(cfg, env, w).0;
    if cfg.secretRef.None? && cfg.definition in w.appSets {
      CalmWrite(cfg, env, w, cfg.definition, Without(cfg.Me(), w.appSets[cfg.definition].generators), UpdateDefinition);
    }
    CalmFetch(cfg, env, w1, 0, false, NothingFetched(w1));
    var f := FetchSetups(cfg, env, w1, 0, false, NothingFetched(w1));
    if f.last.Some? {
      CalmRepeated(cfg, env, w1, f.last.value.0, 0, f.count);
    }
    hide Without, WriteAppSet, FetchSetups, LeaveRepeatedly;
  }

  lemma {:induction false} OthersStayNamed(ss: seq<ArgoSecret>, gone: string, name: string)
    requires SecretNamed(ss, name) && name != gone
    ensures SecretNamed(WithoutSecret(ss, gone), name)
  {
    if ss[0].name == name {
      assert WithoutSecret(ss, gone)[0].name == name;
    } else {
      var i :| 0 <= i < |ss| && ss[i].name == name;
      assert ss[1..][i - 1].name == name;
      OthersStayNamed(ss[1..], gone, name);
      var j :| 0 <= j < |WithoutSecret(ss[1..], gone)| && WithoutSecret(ss[1..], gone)[j].name == name;
      assert WithoutSecret(ss, gone)[if ss[0].name == gone then j else j + 1].name == name;
    }
  }

  lemma {:induction false} CalmDeleteSecrets(cfg: Config, env: Env, w: Server, listed: seq<ArgoSecret>, i: nat)
    requires Calm(env) && i <= |listed| && DistinctSecrets(listed)
    requires forall j | i <= j < |listed| :: SecretNamed(w.argoSecrets, listed[j].name)
    ensures var r := DeleteSecrets(cfg, env, w, listed, i); r.1 && r.0 == w.(argoSecrets := r.0.argoSecrets)
    decreases |listed| - i
  {
    hide SecretNamed, WithoutSecret;
    if i < |listed| {
      assert SecretNamed(w.argoSecrets, listed[i].name);
      var n := w.(argoSecrets := WithoutSecret(w.argoSecrets, listed[i].name));
      forall j | i + 1 <= j < |listed| ensures SecretNamed(n.argoSecrets, listed[j].name) {
        OthersStayNamed(w.argoSecrets, listed[i].name, listed[j].name);
      }
      CalmDeleteSecrets(cfg, env, n, listed, i + 1);
    }
  }

  lemma CalmLeaveArgo(cfg: Config, env: Env, w: Server)
    requires Calm(env) && DistinctSecrets(w.argoSecrets)
    ensures var r := LeaveArgo(cfg, env, w); r.1 && r.0 == w.(argoSecrets := r.0.argoSecrets)
  {
    var listed := MySecrets(cfg.Me(), w.argoSecrets);
    MySecretsDistinct(cfg.Me(), w.argoSecrets);
    forall j | 0 <= j < |listed| ensures SecretNamed(w.argoSecrets, listed[j].name) {
      assert listed[j] in w.argoSecrets;
      var i :| 0 <= i < |w.argoSecrets| && w.argoSecrets[i] == listed[j];
    }
    CalmDeleteSecrets(cfg, env, w, listed, 0);
    hide MySecrets, DeleteSecrets, SecretNamed;
  }

  lemma {:induction false} FirstIsThere(me: Key, cs: seq<ManagedCluster>)
    requires FirstCluster(me, cs).Some?
    ensures NameTaken(cs, FirstCluster(me, cs).value.name)
  {
    if !(Matches(me, cs[0].labels) && HasClusterPrefix(cs[0].name)) {
      FirstIsThere(me, cs[1..]);
      var i :| 0 <= i < |cs[1..]| && cs[1..][i].name == FirstCluster(me, cs).value.name;
      assert cs[i + 1].name == FirstCluster(me, cs).value.name;
    }
  }

  lemma CalmLeaveCluster(cfg: Config, env: Env, w: Server)
    requires Calm(env)
    ensures var r := LeaveCluster(cfg, env, w); r.1 && r.0.appSets == w.appSets
  {
    if FirstCluster(cfg.Me(), w.clusters).Some? {
      FirstIsThere(cfg.Me(), w.clusters);
    }
    hide FirstCluster, NameTaken, WithoutCluster;
  }

  /** When no call fails, one delete pass is enough: the finalizer goes, exactly when it is
      the only one. */
  lemma CalmDeleteReleases(cfg: Config, env: Env, w: Server)
    requires Calm(env) && DistinctSecrets(w.argoSecrets)
    ensures DeletePass(cfg, env, w).1 <==> env.finalizers == [CTI_FINALIZER]
    ensures !env.templateFound ==> DeletePass(cfg, env, w).0.appSets == w.appSets
  {
    var w1 := if env.templateFound then LeaveAppSets(cfg, env, w).0 else w;
    CalmLeaveAppSets(cfg, env, w);
    CalmLeaveArgo(cfg, env, w1);
    CalmLeaveCluster(cfg, env, LeaveArgo(cfg, env, w1).0);
    hide LeaveAppSets, LeaveArgo, LeaveCluster, DistinctSecrets;
  }

  ghost predicate Unlisted(cfg: Config, w: Server) {
    forall m :: NotIn(cfg, w, m)
  }

  // Without the template a delete pass writes to no ApplicationSet.

  lemma SameSets(cfg: Config, env: Env, w: Server, a: Server, n: Server, m: string)
    requires StaysListed(cfg, env, w, a, m) && n.appSets == a.appSets
    ensures StaysListed(cfg, env, w, n, m)
  {
    hide HasOwn, Spared;
  }

  lemma {:induction false} SecretsStayListed(cfg: Config, env: Env, w: Server, a: Server, listed: seq<ArgoSecret>,
      i: nat, m: string)
    requires i <= |listed| && StaysListed(cfg, env, w, a, m)
    ensures StaysListed(cfg, env, w, DeleteSecrets(cfg, env, a, listed, i).0, m)
    decreases |listed| - i
  {
    hide Handled, StaysListed, SecretNamed, WithoutSecret;
    if i < |listed| {
      var n := Handled(cfg, env, a, DeleteArgoSecret(i));
      var n1 := n.(argoSecrets := WithoutSecret(n.argoSecrets, listed[i].name));
      HandledStaysListed(cfg, env, w, a, DeleteArgoSecret(i), m);
      SameSets(cfg, env, w, n, n1, m);
      SecretsStayListed(cfg, env, w, n1, listed, i + 1, m);
    }
  }

  lemma ArgoStaysListed(cfg: Config, env: Env, w: Server, a: Server, m: string)
    requires StaysListed(cfg, env, w, a, m)
    ensures StaysListed(cfg, env, w, LeaveArgo(cfg, env, a).0, m)
  {
    hide Handled, StaysListed, DeleteSecrets, MySecrets;
    var a1 := Handled(cfg, env, a, ListArgoSecrets);
    HandledStaysListed(cfg, env, w, a, ListArgoSecrets, m);
    SecretsStayListed(cfg, env, w, a1, MySecrets(cfg.Me(), a1.argoSecrets), 0, m);
  }

  lemma AddonsStayListed(cfg: Config, env: Env, w: Server, a: Server, name: string, m: string)
    requires StaysListed(cfg, env, w, a, m)
    ensures StaysListed(cfg, env, w, DeleteAddons(cfg, env, a, name).0, m)
  {
    hide Handled, StaysListed;
    var a1 := if cfg.enableKlusterlet then Handled(cfg, env, a, DeleteKlusterlet) else a;
    var a2 := if cfg.enableKlusterlet && Done(env, DeleteKlusterlet) then a1.(klusterlets := a1.klusterlets - {name})
      else a1;
    var a3 := Handled(cfg, env, a2, DeleteImportSecret);
    HandledStaysListed(cfg, env, w, a, DeleteKlusterlet, m);
    SameSets(cfg, env, w, a1, a2, m);
    HandledStaysListed(cfg, env, w, a2, DeleteImportSecret, m);
    SameSets(cfg, env, w, a3, a3.(importSecrets := a3.importSecrets - {name}), m);
  }

  lemma ClusterStaysListed(cfg: Config, env: Env, w: Server, a: Server, m: string)
    requires StaysListed(cfg, env, w, a, m)
    ensures StaysListed(cfg, env, w, LeaveCluster(cfg, env, a).0, m)
  {
    hide Handled, StaysListed, DeleteAddons, FirstCluster, NameTaken, WithoutCluster;
    var a1 := Handled(cfg, env, a, ListForDelete);
    HandledStaysListed(cfg, env, w, a, ListForDelete, m);
    var mc := FirstCluster(cfg.Me(), a1.clusters);
    if mc.Some? {
      var a2 := DeleteAddons(cfg, env, a1, mc.value.name).0;
      var a3 := Handled(cfg, env, a2, DeleteCluster);
      AddonsStayListed(cfg, env, w, a1, mc.value.name, m);
      HandledStaysListed(cfg, env, w, a2, DeleteCluster, m);
      SameSets(cfg, env, w, a3, a3.(clusters := WithoutCluster(a3.clusters, mc.value.name)), m);
    }
  }

  lemma DeletionStaysListed(cfg: Config, env: Env, w: Server, m: string)
    requires !env.templateFound
    ensures StaysListed(cfg, env, w, DeletePass(cfg, env, w).0, m)
  {
    assert StaysListed(cfg, env, w, w, m);
    hide Handled, StaysListed, LeaveArgo, LeaveCluster, LeaveAppSets;
    var w1 := Handled(cfg, env, w, GetTemplate);
    HandledStaysListed(cfg, env, w, w, GetTemplate, m);
    ArgoStaysListed(cfg, env, w, w1, m);
    ClusterStaysListed(cfg, env, w, LeaveArgo(cfg, env, w1).0, m);
    HandledStaysListed(cfg, env, w, Cleanup(cfg, env, w).0, RemoveFinalizer, m);
  }

  /** The instance's generators survive its deletion, whatever fails on the way, exactly
      when its template went first while it was still listed: the delete pass then never
      looks at the ApplicationSets and lets the finalizer go all the same. Only somebody
      who removes a whole set meanwhile takes one away. */
  lemma ListedAfterReleaseExactlyWhen(cfg: Config, env: Env, w: Server)
    requires HubInv(cfg, w) && DeletePass(cfg, env, w).1
    ensures var n := DeletePass(cfg, env, w).0;
      && (env.templateFound || Unlisted(cfg, w) ==> Unlisted(cfg, n))
      && (Spared(cfg, env, w) ==> (Unlisted(cfg, n) <==> env.templateFound || Unlisted(cfg, w)))
  {
    hide DeletePass, HubInv, NoSecrets, NoClusters, Spared, Listed;
    DeletePassClears(cfg, env, w);
    var n := DeletePass(cfg, env, w).0;
    if !env.templateFound {
      forall m ensures StaysListed(cfg, env, w, n, m) {
        DeletionStaysListed(cfg, env, w, m);
      }
      assert forall m :: StaysListed(cfg, env, w, n, m) ==> (NotIn(cfg, w, m) ==> NotIn(cfg, n, m));
      if Spared(cfg, env, w) && Unlisted(cfg, n) {
        forall m ensures NotIn(cfg, w, m) {
          assert NotIn(cfg, n, m) && StaysListed(cfg, env, w, n, m);
        }
      }
    }
  }

  // -------- the argo secret --------

  // The server on which the argo secret is looked up.
  function SecretLookup(cfg: Config, env: Env, w: Server): Server {
    var w1 := if cfg.secretRef.Some? then w else Handled(cfg, env, w, ListDay1ForArgo);
    var w2 := if cfg.Registers() then Handled(cfg, env, w1, ListForArgo) else w1;
    Handled(cfg, env, w2, GetArgoSecret)
  }

  lemma HandledKeepsSecrets(cfg: Config, env: Env, w: Server, s: Site)
    ensures MySecrets(cfg.Me(), Handled(cfg, env, w, s).argoSecrets) == MySecrets(cfg.Me(), w.argoSecrets)
  {
    hide MyClusters, MySecrets, Own, ServerOk;
  }

  lemma LookupKeepsSecrets(cfg: Config, env: Env, w: Server)
    ensures MySecrets(cfg.Me(), SecretLookup(cfg, env, w).argoSecrets) == MySecrets(cfg.Me(), w.argoSecrets)
  {
    hide Handled, MySecrets;
    var w1 := if cfg.secretRef.Some? then w else Handled(cfg, env, w, ListDay1ForArgo);
    var w2 := if cfg.Registers() then Handled(cfg, env, w1, ListForArgo) else w1;
    HandledKeepsSecrets(cfg, env, w, ListDay1ForArgo);
    HandledKeepsSecrets(cfg, env, w1, ListForArgo);
    HandledKeepsSecrets(cfg, env, w2, GetArgoSecret);
  }

  // What the addition does once it has looked.
  lemma AfterLookup(cfg: Config, env: Env, w: Server)
    requires FinishArgo(cfg, env, w).1
    ensures ArgoSecretName(cfg, env).Some?
    ensures var n, at, name := FinishArgo(cfg, env, w).0, SecretLookup(cfg, env, w), ArgoSecretName(cfg, env).value;
      if SecretNamed(at.argoSecrets, name) then n == at
      else n.argoSecrets == Handled(cfg, env, at, CreateArgoSecret).argoSecrets + [ArgoSecret(name, Some(cfg.Me()))]
  {
    hide Handled, FirstCluster, SecretNamed, ArgoSecretName;
  }

  /** Adding the cluster to Argo CD succeeds as soon as any secret of the name exists. So
      whenever it succeeds, it leaves the instance without a secret of its own exactly when
      it had none and the name was taken by the time of the look-up; a delete pass, which
      goes by label, then has nothing to remove. */
  lemma OwnSecretExactlyWhen(cfg: Config, env: Env, w: Server)
    requires FinishArgo(cfg, env, w).1
    ensures ArgoSecretName(cfg, env).Some?
    ensures MySecrets(cfg.Me(), FinishArgo(cfg, env, w).0.argoSecrets) == [] <==>
      && MySecrets(cfg.Me(), w.argoSecrets) == []
      && SecretNamed(SecretLookup(cfg, env, w).argoSecrets, ArgoSecretName(cfg, env).value)
  {
    hide MySecrets, SecretNamed, Handled, FinishArgo, SecretLookup, ArgoSecretName;
    AfterLookup(cfg, env, w);
    LookupKeepsSecrets(cfg, env, w);
    var s, at := ArgoSecret(ArgoSecretName(cfg, env).value, Some(cfg.Me())), SecretLookup(cfg, env, w);
    HandledKeepsSecrets(cfg, env, at, CreateArgoSecret);
    MySecretsAppend(cfg.Me(), Handled(cfg, env, at, CreateArgoSecret).argoSecrets, [s]);
    OneSecret(cfg.Me(), s);
  }

  lemma OneSecret(me: Key, s: ArgoSecret)
    requires s.owner == Some(me)
    ensures MySecrets(me, [s]) == [s]
  {
    assert [s][1..] == [];
  }
}
