/** The hub cluster's API server as one instance's reconciler sees it, and the calls it makes. */
module Hub {
  import opened Generators
  import opened Conditions

  datatype LabelKey = CTIName | CTINamespace | Cloud | Vendor | OtherLabel(id: string)

  datatype ManagedCluster = ManagedCluster(name: string, labels: map<LabelKey, string>)

  // A secret in the Argo CD namespace; `owner` is what its two CTI labels name.
  datatype ArgoSecret = ArgoSecret(name: string, owner: Option<Key>)

  datatype Server = Server(
    rv: nat,
    appSets: map<string, AppSet>,
    clusters: seq<ManagedCluster>,
    argoSecrets: seq<ArgoSecret>,
    kubeconfigs: map<Key, string>,      // <name>-admin-kubeconfig: API server URL it holds
    passwords: map<Key, string>,        // <name>-admin-password
    importSecrets: set<string>,         // auto-import-secret, by managed cluster
    klusterlets: set<string>)           // KlusterletAddonConfig, by managed cluster

  // One constructor per call the reconciler makes in a pass, in the order of the source.
  datatype Site =
    | GetTemplate
    | GetDefinition | LabelNamespace | UpdateDefinition
    | ListDay1 | GetProviderObject | GetClaimedDeployment | GetProviderKubeconfig | GetProviderPassword
    | GetOwnKubeconfig | CreateOwnKubeconfig | GetOwnPassword | CreateOwnPassword | ListNodePools
    | GetSecretRef
    | ListBeforeCreate | CreateCluster | ListAfterCreate
    | ListForImport | GetKubeconfigForImport | GetImportSecret | CreateImportSecret
    | ListForKlusterlet | GetKlusterlet | CreateKlusterlet
    | ListForConsole
    | GetKubeconfigForArgo | PrepareNewCluster | ListDay1ForArgo | ListForArgo | GetArgoSecret | CreateArgoSecret
    | GetSetup(index: nat) | GetKubeconfigForSetup | UpdateSetup(index: nat)
    | ListSetupApps
    | GetKubeconfigForCredentials | ListSetupSecrets | ReconcileRoles
    | ListArgoSecrets | DeleteArgoSecret(index: nat)
    | ListForDelete | DeleteKlusterlet | DeleteImportSecret | DeleteCluster | RemoveFinalizer

  // Unanswered: the server carried the call out but the caller got an error.
  datatype Outcome = Served | Refused | Unanswered

  // `before`: what the others have made of the server by the time the call is handled.
  datatype Reply = Reply(outcome: Outcome, before: Option<Server>)

  predicate Matches(me: Key, labels: map<LabelKey, string>) {
    CTIName in labels && labels[CTIName] == me.name && CTINamespace in labels && labels[CTINamespace] == me.namespace
  }

  function MyClusters(me: Key, cs: seq<ManagedCluster>): seq<ManagedCluster> {
    if cs == [] then []
    else (if Matches(me, cs[0].labels) then [cs[0]] else []) + MyClusters(me, cs[1..])
  }

  function MySecrets(me: Key, ss: seq<ArgoSecret>): seq<ArgoSecret> {
    if ss == [] then []
    else (if ss[0].owner == Some(me) then [ss[0]] else []) + MySecrets(me, ss[1..])
  }

  predicate VersionsBounded(w: Server) {
    forall m | m in w.appSets :: w.appSets[m].version <= w.rv
  }

  predicate DistinctClusters(cs: seq<ManagedCluster>) {
    forall i, j | 0 <= i < j < |cs| :: cs[i].name != cs[j].name
  }

  predicate DistinctSecrets(ss: seq<ArgoSecret>) {
    forall i, j | 0 <= i < j < |ss| :: ss[i].name != ss[j].name
  }

  // What the server itself sees to: versions and unique names.
  predicate ServerOk(w: Server) {
    VersionsBounded(w) && DistinctClusters(w.clusters) && DistinctSecrets(w.argoSecrets)
  }

  // Some of the clusters are gone, and no other has come.
  predicate Thins(a: seq<ManagedCluster>, b: seq<ManagedCluster>) {
    |b| <= |a| && forall x | x in b :: x in a
  }

  /** What the other actors may do to the server while this instance works: anything but
      touch the instance's own generators (short of removing their whole set), argo secrets
      and credentials, and make a managed cluster that is labelled for it; removing one of
      its managed clusters is allowed. A changed set carries a newer version. */
  predicate Rely(me: Key, w: Server, n: Server) {
    && w.rv <= n.rv
    && ServerOk(n)
    && (forall m | m in n.appSets :: (m in w.appSets && n.appSets[m] == w.appSets[m]) || w.rv < n.appSets[m].version)
    && (forall m | m in n.appSets ::
          Own(me, n.appSets[m].generators) == [] ||
          (m in w.appSets && Own(me, n.appSets[m].generators) == Own(me, w.appSets[m].generators)))
    && Thins(MyClusters(me, w.clusters), MyClusters(me, n.clusters))
    && MySecrets(me, n.argoSecrets) == MySecrets(me, w.argoSecrets)
    && (me in w.kubeconfigs ==> me in n.kubeconfigs && n.kubeconfigs[me] == w.kubeconfigs[me])
    && (me in w.passwords ==> me in n.passwords && n.passwords[me] == w.passwords[me])
  }

  // The server at the moment the call is handled.
  function At(me: Key, w: Server, r: Reply): Server {
    if r.before.Some? && Rely(me, w, r.before.value) then r.before.value else w
  }

  predicate HasClusterPrefix(name: string) {
    "cluster-" <= name
  }

  // GetManagedCluster: the first labelled cluster whose name starts with "cluster-".
  function FirstCluster(me: Key, cs: seq<ManagedCluster>): (r: Option<ManagedCluster>)
    ensures r.Some? ==> r.value in MyClusters(me, cs) && Matches(me, r.value.labels) && HasClusterPrefix(r.value.name)
  {
    if cs == [] then None
    else if Matches(me, cs[0].labels) && HasClusterPrefix(cs[0].name) then Some(cs[0])
    else FirstCluster(me, cs[1..])
  }

  /** The write half of an AppSet edit: refused when the stored version has moved on. */
  function WriteAppSet(me: Key, w: Server, name: string, copy: AppSet, gens: seq<Generator>, r: Reply): (Server, bool) {
    var n := At(me, w, r);
    if r.outcome.Refused? || name !in n.appSets || n.appSets[name].version != copy.version then (n, false)
    else
      (n.(rv := n.rv + 1, appSets := n.appSets[name := AppSet(n.rv + 1, copy.template, gens)]), r.outcome.Served?)
  }

  predicate NameTaken(cs: seq<ManagedCluster>, name: string) {
    exists i | 0 <= i < |cs| :: cs[i].name == name
  }

  predicate SecretNamed(ss: seq<ArgoSecret>, name: string) {
    exists i | 0 <= i < |ss| :: ss[i].name == name
  }

  function WithoutSecret(ss: seq<ArgoSecret>, name: string): seq<ArgoSecret> {
    if ss == [] then [] else (if ss[0].name == name then [] else [ss[0]]) + WithoutSecret(ss[1..], name)
  }

  function WithoutCluster(cs: seq<ManagedCluster>, name: string): seq<ManagedCluster> {
    if cs == [] then [] else (if cs[0].name == name then [] else [cs[0]]) + WithoutCluster(cs[1..], name)
  }

  // -------- list lemmas --------

  lemma {:induction false} MyClustersAppend(me: Key, a: seq<ManagedCluster>, b: seq<ManagedCluster>)
    ensures MyClusters(me, a + b) == MyClusters(me, a) + MyClusters(me, b)
  {
    if a == [] {
      assert a + b == b;
    } else {
      assert (a + b)[1..] == a[1..] + b;
      MyClustersAppend(me, a[1..], b);
    }
  }

  lemma {:induction false} MySecretsAppend(me: Key, a: seq<ArgoSecret>, b: seq<ArgoSecret>)
    ensures MySecrets(me, a + b) == MySecrets(me, a) + MySecrets(me, b)
  {
    if a == [] {
      assert a + b == b;
    } else {
      assert (a + b)[1..] == a[1..] + b;
      MySecretsAppend(me, a[1..], b);
    }
  }

  ghost predicate AllPrefixed(cs: seq<ManagedCluster>) {
    forall i | 0 <= i < |cs| :: HasClusterPrefix(cs[i].name)
  }

  lemma PrefixedStay(a: seq<ManagedCluster>, b: seq<ManagedCluster>)
    requires AllPrefixed(a) && forall x | x in b :: x in a
    ensures AllPrefixed(b)
  {
    forall i | 0 <= i < |b| ensures HasClusterPrefix(b[i].name) {
      assert b[i] in a;
      var j :| 0 <= j < |a| && a[j] == b[i];
    }
  }

  lemma {:induction false} FirstClusterIsHead(me: Key, cs: seq<ManagedCluster>)
    requires AllPrefixed(MyClusters(me, cs))
    ensures FirstCluster(me, cs) == if MyClusters(me, cs) == [] then None else Some(MyClusters(me, cs)[0])
  {
    if cs != [] {
      var rest := MyClusters(me, cs[1..]);
      if Matches(me, cs[0].labels) {
        assert MyClusters(me, cs)[0] == cs[0];
        assert HasClusterPrefix(cs[0].name);
      } else {
        assert MyClusters(me, cs) == rest;
        FirstClusterIsHead(me, cs[1..]);
      }
    }
  }

  // The first of the listed clusters with the generated prefix.
  function FirstPrefixed(cs: seq<ManagedCluster>): Option<ManagedCluster> {
    if cs == [] then None
    else if HasClusterPrefix(cs[0].name) then Some(cs[0])
    else FirstPrefixed(cs[1..])
  }

  lemma {:induction false} ListedThenPrefixed(me: Key, cs: seq<ManagedCluster>)
    ensures FirstPrefixed(MyClusters(me, cs)) == FirstCluster(me, cs)
  {
    if cs != [] {
      ListedThenPrefixed(me, cs[1..]);
      var mine, rest := MyClusters(me, cs), MyClusters(me, cs[1..]);
      if Matches(me, cs[0].labels) {
        assert mine[0] == cs[0] && mine[1..] == rest;
      } else {
        assert mine == rest;
      }
    }
  }

  lemma {:induction false} NonePrefixed(cs: seq<ManagedCluster>)
    ensures FirstPrefixed(cs) == None <==> forall x | x in cs :: !HasClusterPrefix(x.name)
  {
    if cs != [] {
      NonePrefixed(cs[1..]);
    }
  }

  // Where the look-up finds nothing it finds nothing later on either.
  lemma NoneFoundLater(me: Key, a: seq<ManagedCluster>, b: seq<ManagedCluster>)
    requires Thins(MyClusters(me, a), MyClusters(me, b)) && FirstCluster(me, a) == None
    ensures FirstCluster(me, b) == None
  {
    ListedThenPrefixed(me, a);
    ListedThenPrefixed(me, b);
    NonePrefixed(MyClusters(me, a));
    NonePrefixed(MyClusters(me, b));
  }
}
