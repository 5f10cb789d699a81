/** Argo CD applications: how their health is classified and which cluster provider
    their resources name. */
module Applications {
  import opened Conditions

  datatype Health = Healthy | Degraded | OtherHealth

  datatype OperationPhase = Succeeded | OtherPhase

  datatype Kind = HostedCluster | ClusterDeployment | ClusterClaim | NodePool | OtherKind
  datatype Group = HypershiftGroup | HiveGroup | OtherGroup
  datatype ApiVersion = V1beta1 | V1 | OtherVersion

  datatype Resource = Resource(
    kind: Kind, group: Group, version: ApiVersion, name: string, namespace: string, health: Health)

  // `errors`: for each condition, whether its type ends in "Error".
  datatype Application = Application(
    name: string, setup: string, errors: seq<bool>, health: Health,
    operation: Option<OperationPhase>, resources: seq<Resource>)

  datatype AppStatus = AppError | AppSyncRunning | AppDegraded | AppHealthy

  // No condition says error, the last operation has succeeded, and the health is good.
  predicate Fine(app: Application) {
    && (forall i | 0 <= i < |app.errors| :: !app.errors[i])
    && app.operation == Some(Succeeded) && app.health == Healthy
  }

  predicate ResourcesFine(app: Application) {
    forall i | 0 <= i < |app.resources| :: app.resources[i].health == Healthy
  }

  /** What each of the four answers says about the application's own fields. */
  lemma ClassifiedByFields(app: Application, includeResources: bool)
    ensures Classify(app, includeResources) == AppError <==> exists i :: 0 <= i < |app.errors| && app.errors[i]
    ensures Classify(app, includeResources) == AppDegraded <==>
        app.health == Degraded && forall i | 0 <= i < |app.errors| :: !app.errors[i]
    ensures Classify(app, includeResources) == AppHealthy <==> Fine(app) && (includeResources ==> ResourcesFine(app))
  {
    if true in app.errors {
      var i :| 0 <= i < |app.errors| && app.errors[i];
    }
  }

  // The classification, as a decision on the whole application.
  function Classify(app: Application, includeResources: bool): AppStatus {
    if true in app.errors then AppError
    else if app.health == Degraded then AppDegraded
    else if app.operation == Some(Succeeded) && app.health == Healthy
            && (includeResources ==> forall i | 0 <= i < |app.resources| :: app.resources[i].health == Healthy)
    then AppHealthy
    else AppSyncRunning
  }

  /** GetApplicationHealth: one error condition outweighs everything, degradation comes
      next, and healthy takes a finished operation, the application's own health and, if
      they are asked for, that of all its resources. */
  method GetApplicationHealth(app: Application, includeResources: bool) returns (status: AppStatus)
    ensures status == Classify(app, includeResources)
    ensures status == AppError <==> exists i :: 0 <= i < |app.errors| && app.errors[i]
    ensures status == AppDegraded <==> app.health == Degraded && forall i | 0 <= i < |app.errors| :: !app.errors[i]
    ensures status == AppHealthy <==> Fine(app) && (includeResources ==> ResourcesFine(app))
  {
    for i := 0 to |app.errors|
      invariant true !in app.errors[..i]
    {
      if app.errors[i] {
        return AppError;
      }
    }
    assert app.errors[..|app.errors|] == app.errors;
    if app.health == Degraded {
      return AppDegraded;
    }
    if app.operation == None || app.operation != Some(Succeeded) || app.health != Healthy {
      return AppSyncRunning;
    }
    if includeResources {
      for i := 0 to |app.resources|
        invariant forall j | 0 <= j < i :: app.resources[j].health == Healthy
      {
        if app.resources[i].health != Healthy {
          return AppSyncRunning;
        }
      }
    }
    return AppHealthy;
  }

  datatype Provider =
    | HostedProvider(name: string, namespace: string, nodePools: seq<string>)
    | DeploymentProvider(name: string, namespace: string)
    | ClaimProvider(name: string, namespace: string)

  predicate Recognized(r: Resource) {
    || (r.kind == HostedCluster && r.group == HypershiftGroup)
    || (r.kind == ClusterDeployment && r.group == HiveGroup)
    || (r.kind == ClusterClaim && r.group == HiveGroup)
  }

  predicate SupportedVersion(r: Resource) {
    r.version == if r.kind == HostedCluster then V1beta1 else V1
  }

  function NodePoolNames(rs: seq<Resource>): seq<string> {
    if rs == [] then []
    else (if rs[0].kind == NodePool then [rs[0].name] else []) + NodePoolNames(rs[1..])
  }

  function ProviderOf(r: Resource, all: seq<Resource>): Provider {
    if r.kind == HostedCluster then HostedProvider(r.name, r.namespace, NodePoolNames(all))
    else if r.kind == ClusterDeployment then DeploymentProvider(r.name, r.namespace)
    else ClaimProvider(r.name, r.namespace)
  }

  // The first recognized resource decides, even when its version is not supported.
  function Detect(rs: seq<Resource>, all: seq<Resource>): Option<Provider> {
    if rs == [] then None
    else if Recognized(rs[0]) then
      if SupportedVersion(rs[0]) then Some(ProviderOf(rs[0], all)) else None
    else Detect(rs[1..], all)
  }

  lemma {:induction false} NodePoolNamesSnoc(rs: seq<Resource>, r: Resource)
    ensures NodePoolNames(rs + [r]) == NodePoolNames(rs) + (if r.kind == NodePool then [r.name] else [])
  {
    if rs == [] {
      assert rs + [r] == [r];
    } else {
      var s, h := rs + [r], if rs[0].kind == NodePool then [rs[0].name] else [];
      assert s[0] == rs[0] && s[1..] == rs[1..] + [r];
      assert NodePoolNames(s) == h + NodePoolNames(s[1..]) && NodePoolNames(rs) == h + NodePoolNames(rs[1..]);
      NodePoolNamesSnoc(rs[1..], r);
    }
  }

  // The places of the node pools in the list.
  function PoolPlaces(rs: seq<Resource>, i: nat): (r: seq<nat>)
    requires i <= |rs|
    ensures forall k | 0 <= k < |r| :: i <= r[k] < |rs| && rs[r[k]].kind == NodePool
    ensures forall j, k | 0 <= j < k < |r| :: r[j] < r[k]
    ensures forall j | i <= j < |rs| && rs[j].kind == NodePool :: j in r
    decreases |rs| - i
  {
    if i == |rs| then []
    else (if rs[i].kind == NodePool then [i] else []) + PoolPlaces(rs, i + 1)
  }

  /** The names are those of all node pools, wherever they stand, in the order of the list. */
  lemma {:induction false} PoolsInOrder(rs: seq<Resource>, i: nat)
    requires i <= |rs|
    ensures |NodePoolNames(rs[i..])| == |PoolPlaces(rs, i)|
    ensures forall k | 0 <= k < |PoolPlaces(rs, i)| :: NodePoolNames(rs[i..])[k] == rs[PoolPlaces(rs, i)[k]].name
    decreases |rs| - i
  {
    if i < |rs| {
      assert rs[i..][0] == rs[i] && rs[i..][1..] == rs[i + 1..];
      PoolsInOrder(rs, i + 1);
    }
  }

  method CollectNodePools(rs: seq<Resource>) returns (names: seq<string>)
    ensures names == NodePoolNames(rs)
  {
    names := [];
    for i := 0 to |rs|
      invariant names == NodePoolNames(rs[..i])
    {
      assert rs[..i + 1] == rs[..i] + [rs[i]];
      NodePoolNamesSnoc(rs[..i], rs[i]);
      if rs[i].kind == NodePool {
        names := names + [rs[i].name];
      }
    }
    assert rs[..|rs|] == rs;
  }

  /** GetClusterProvider. */
  method GetClusterProvider(app: Application) returns (p: Option<Provider>)
    ensures p == Detect(app.resources, app.resources)
    ensures FirstGives(app.resources, p)
  {
    DetectedByFields(app.resources);
    hide FirstGives;
    var rs := app.resources;
    for i := 0 to |rs|
      invariant Detect(rs, rs) == Detect(rs[i..], rs)
    {
      var obj := rs[i];
      assert rs[i..][0] == obj && rs[i..][1..] == rs[i + 1..];
      if obj.kind == HostedCluster && obj.group == HypershiftGroup {
        if obj.version != V1beta1 {
          return None;
        }
        var nodePools := CollectNodePools(rs);
        return Some(HostedProvider(obj.name, obj.namespace, nodePools));
      } else if obj.kind == ClusterDeployment && obj.group == HiveGroup {
        if obj.version != V1 {
          return None;
        }
        return Some(DeploymentProvider(obj.name, obj.namespace));
      } else if obj.kind == ClusterClaim && obj.group == HiveGroup {
        if obj.version != V1 {
          return None;
        }
        return Some(ClaimProvider(obj.name, obj.namespace));
      }
    }
    p := None;
  }

  // The kinds a provider is made for, each with the group it has to be of.
  const PROVIDER_KINDS: set<(Kind, Group)> :=
    {(HostedCluster, HypershiftGroup), (ClusterDeployment, HiveGroup), (ClusterClaim, HiveGroup)}

  predicate Known(r: Resource) { (r.kind, r.group) in PROVIDER_KINDS }

  // What is to be read from the first known resource.
  ghost predicate ReadFrom(r: Resource, rs: seq<Resource>, p: Option<Provider>) {
    match r.kind
    case HostedCluster =>
      if r.version != V1beta1 then p == None
      else
        && p.Some? && p.value.HostedProvider? && p.value.name == r.name && p.value.namespace == r.namespace
        && |p.value.nodePools| == |PoolPlaces(rs, 0)|
        && forall k | 0 <= k < |PoolPlaces(rs, 0)| :: p.value.nodePools[k] == rs[PoolPlaces(rs, 0)[k]].name
    case ClusterDeployment =>
      if r.version != V1 then p == None
      else p.Some? && p.value.DeploymentProvider? && p.value.name == r.name && p.value.namespace == r.namespace
    case ClusterClaim =>
      if r.version != V1 then p == None
      else p.Some? && p.value.ClaimProvider? && p.value.name == r.name && p.value.namespace == r.namespace
    case _ => p == None
  }

  /** The provider is read from the first known resource, wherever it stands: its kind says
      which provider it is, its name and namespace where to look, an unsupported version
      that there is none; and without a known resource there is none. */
  lemma {:induction false} ProviderByFields(rs: seq<Resource>, k: nat)
    requires k <= |rs| && forall i | 0 <= i < k :: !Known(rs[i])
    ensures k < |rs| && Known(rs[k]) ==> ReadFrom(rs[k], rs, Detect(rs, rs))
    ensures k == |rs| ==> Detect(rs, rs) == None
  {
    assert forall r: Resource :: Known(r) <==> Recognized(r);
    if k < |rs| && Known(rs[k]) {
      DetectedFromFirst(rs, rs, k);
      PoolsInOrder(rs, 0);
      assert rs[0..] == rs;
    } else if k == |rs| {
      NoneDetected(rs, rs);
    }
  }

  // The first known resource gives this provider, or none.
  ghost predicate FirstGives(rs: seq<Resource>, p: Option<Provider>) {
    (exists k :: 0 <= k < |rs| && Known(rs[k]) && (forall i | 0 <= i < k :: !Known(rs[i])) && ReadFrom(rs[k], rs, p))
    || (p == None && forall i | 0 <= i < |rs| :: !Known(rs[i]))
  }

  lemma {:induction false} FirstKnown(rs: seq<Resource>) returns (k: nat)
    ensures k <= |rs| && (forall i | 0 <= i < k :: !Known(rs[i])) && (k < |rs| ==> Known(rs[k]))
  {
    k := 0;
    while k < |rs| && !Known(rs[k])
      invariant k <= |rs| && forall i | 0 <= i < k :: !Known(rs[i])
    {
      k := k + 1;
    }
  }

  lemma DetectedByFields(rs: seq<Resource>)
    ensures FirstGives(rs, Detect(rs, rs))
  {
    hide ReadFrom, Known, Detect;
    var k := FirstKnown(rs);
    ProviderByFields(rs, k);
  }

  lemma {:induction false} NoneDetected(rs: seq<Resource>, all: seq<Resource>)
    requires forall i | 0 <= i < |rs| :: !Recognized(rs[i])
    ensures Detect(rs, all) == None
  {
    if rs != [] {
      NoneDetected(rs[1..], all);
    }
  }

  /** A provider is found exactly when the first resource of a known kind and group has
      the supported version; the ones before it play no part. */
  lemma {:induction false} DetectedFromFirst(rs: seq<Resource>, all: seq<Resource>, k: nat)
    requires k < |rs| && Recognized(rs[k])
    requires forall i | 0 <= i < k :: !Recognized(rs[i])
    ensures Detect(rs, all) == if SupportedVersion(rs[k]) then Some(ProviderOf(rs[k], all)) else None
  {
    if k > 0 {
      DetectedFromFirst(rs[1..], all, k - 1);
    }
  }

  // -------- node pools --------

  // Conditions of one type, as (is it the wanted type, its status).
  datatype TypedStatus = TypedStatus(wanted: bool, status: ConditionStatus)

  datatype NodePoolState = NodePoolState(clusterName: string, conditions: seq<TypedStatus>)

  predicate PoolReady(np: NodePoolState) {
    && (exists i | 0 <= i < |np.conditions| :: np.conditions[i].wanted)
    && (forall i | 0 <= i < |np.conditions| && np.conditions[i].wanted :: np.conditions[i].status != False)
  }

  // Every node pool of the cluster reports readiness and none reports False.
  predicate PoolsReady(pools: seq<NodePoolState>, cluster: string) {
    forall i | 0 <= i < |pools| && pools[i].clusterName == cluster :: PoolReady(pools[i])
  }

  /** The node pool loop of HostedClusterProvider.GetClusterStatus. */
  method NodePoolsReady(pools: seq<NodePoolState>, cluster: string) returns (allReady: bool)
    ensures allReady <==> PoolsReady(pools, cluster)
    ensures allReady <==> forall i | 0 <= i < |pools| && pools[i].clusterName == cluster ::
        && (exists j :: 0 <= j < |pools[i].conditions| && pools[i].conditions[j].wanted)
        && (forall j | 0 <= j < |pools[i].conditions| && pools[i].conditions[j].wanted ::
              pools[i].conditions[j].status != False)
  {
    allReady := true;
    for i := 0 to |pools|
      invariant allReady <==> PoolsReady(pools[..i], cluster)
    {
      assert forall j | 0 <= j < i :: pools[..i + 1][j] == pools[..i][j];
      assert pools[..i + 1][i] == pools[i];
      if pools[i].clusterName == cluster {
        var conditionFound := false;
        ghost var before := allReady;
        var cs := pools[i].conditions;
        for j := 0 to |cs|
          invariant conditionFound <==> exists k | 0 <= k < j :: cs[k].wanted
          invariant allReady <==> before && forall k | 0 <= k < j && cs[k].wanted :: cs[k].status != False
        {
          if cs[j].wanted {
            conditionFound := true;
            if cs[j].status == False {
              allReady := false;
            }
          }
        }
        if !conditionFound {
          allReady := false;
        }
        assert allReady <==> before && PoolReady(pools[i]);
      }
    }
    assert pools[..|pools|] == pools;
  }

  // The last condition of the wanted type decides; none counts as not true.
  function LastIsTrue(cs: seq<TypedStatus>): bool {
    if cs == [] then false
    else if cs[|cs| - 1].wanted then cs[|cs| - 1].status == True
    else LastIsTrue(cs[..|cs| - 1])
  }

  // There is a condition of the wanted type, and the last one of them is True.
  predicate LastWantedIsTrue(cs: seq<TypedStatus>) {
    exists k :: 0 <= k < |cs| && cs[k].wanted && cs[k].status == True && forall i | k < i < |cs| :: !cs[i].wanted
  }

  lemma {:induction false} LastByFields(cs: seq<TypedStatus>)
    ensures LastIsTrue(cs) <==> LastWantedIsTrue(cs)
  {
    if cs != [] && !cs[|cs| - 1].wanted {
      var rest := cs[..|cs| - 1];
      assert forall i | 0 <= i < |rest| :: rest[i] == cs[i];
      LastByFields(rest);
      if LastWantedIsTrue(rest) {
        var k :| 0 <= k < |rest| && rest[k].wanted && rest[k].status == True
          && forall i | k < i < |rest| :: !rest[i].wanted;
        assert cs[k].wanted && cs[k].status == True && forall i | k < i < |cs| :: !cs[i].wanted;
      }
    }
  }

  /** The search loop for HostedClusterAvailable and ManagedClusterImportSucceeded. */
  method LastStatus(cs: seq<TypedStatus>) returns (isTrue: bool)
    ensures isTrue == LastIsTrue(cs)
    ensures isTrue <==> LastWantedIsTrue(cs)
  {
    LastByFields(cs);
    isTrue := false;
    for i := 0 to |cs|
      invariant isTrue == LastIsTrue(cs[..i])
    {
      assert cs[..i + 1][..i] == cs[..i];
      if cs[i].wanted {
        isTrue := cs[i].status == True;
      }
    }
    assert cs[..|cs|] == cs;
  }
}
