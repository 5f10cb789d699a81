/** A pass as the list of its API calls: for every call the server at the moment it is handled
    and what the call writes. Between two calls the others may move. */
module Calls {
  import opened Generators
  import opened Conditions
  import opened Applications
  import opened Hub
  import opened Lifecycle
  import opened Passes

  // What one call changes on the server; a read, a refused call or an error changes nothing.
  datatype Change =
    | Nothing
    | Join(name: string, generator: Generator)
    | Leave(name: string)
    | NewKubeconfig(url: string)
    | NewPassword(password: string)
    | NewCluster(name: string)
    | NewImportSecret(name: string)
    | NewKlusterlet(name: string)
    | NewArgoSecret(name: string)
    | DropImportSecret(name: string)
    | DropKlusterlet(name: string)
    | DropArgoSecret(secret: ArgoSecret)
    | DropCluster(cluster: ManagedCluster)

  datatype Call = Call(site: Site, before: Server, change: Change)

  function WithGenerators(w: Server, name: string, gens: seq<Generator>): Server
    requires name in w.appSets
  {
    w.(rv := w.rv + 1, appSets := w.appSets[name := AppSet(w.rv + 1, w.appSets[name].template, gens)])
  }

  function Apply(cfg: Config, w: Server, x: Change): Server {
    match x
    case Nothing => w
    case Join(name, g) => if name in w.appSets then WithGenerators(w, name, w.appSets[name].generators + [g]) else w
    case Leave(name) =>
      if name in w.appSets then WithGenerators(w, name, Without(cfg.Me(), w.appSets[name].generators)) else w
    case NewKubeconfig(url) => w.(kubeconfigs := w.kubeconfigs[cfg.Me() := url])
    case NewPassword(p) => w.(passwords := w.passwords[cfg.Me() := p])
    case NewCluster(name) => w.(clusters := w.clusters + [ManagedCluster(name, ClusterLabels(cfg))])
    case NewImportSecret(name) => w.(importSecrets := w.importSecrets + {name})
    case NewKlusterlet(name) => w.(klusterlets := w.klusterlets + {name})
    case NewArgoSecret(name) => w.(argoSecrets := w.argoSecrets + [ArgoSecret(name, Some(cfg.Me()))])
    case DropImportSecret(name) => w.(importSecrets := w.importSecrets - {name})
    case DropKlusterlet(name) => w.(klusterlets := w.klusterlets - {name})
    case DropArgoSecret(x) => w.(argoSecrets := WithoutSecret(w.argoSecrets, x.name))
    case DropCluster(mc) => w.(clusters := WithoutCluster(w.clusters, mc.name))
  }

  predicate Removes(x: Change) {
    x.Leave? || x.DropImportSecret? || x.DropKlusterlet? || x.DropArgoSecret? || x.DropCluster?
  }

  // What a run of calls may write: a delete pass takes away; of what a reconcile pass writes,
  // one step alone registers the cluster, and one alone makes the argo secret.
  datatype Powers = Deleting | Passing(registers: bool, adds: bool)

  const PLAIN := Passing(false, false)
  const REGISTERING := Passing(true, false)
  const ADDING := Passing(false, true)
  const PASS := Passing(true, true)

  predicate Within(a: Powers, b: Powers) {
    a == b || (a.Passing? && b.Passing? && (a.registers ==> b.registers) && (a.adds ==> b.adds))
  }

  // What a set is joined for, and where its applications are to go: the cluster definition
  // stays on the hub, the last setup is for the new cluster.
  predicate MeantAs(cfg: Config, w: Server, name: string, url: string, isDay2: bool) {
    if isDay2 then
      && cfg.setups != [] && name == cfg.setups[|cfg.setups| - 1]
      && cfg.Me() in w.kubeconfigs && url == w.kubeconfigs[cfg.Me()]
    else cfg.secretRef.None? && name == cfg.definition && url == "https://kubernetes.default.svc"
  }

  // The generator is right for the set, which has the template `t`.
  ghost predicate Fits(cfg: Config, w: Server, name: string, t: Template, g: Generator) {
    exists url, isDay2 :: MeantAs(cfg, w, name, url, isDay2) && Suits(cfg.instance, name, t, url, isDay2, g)
  }

  // The writes that these powers allow, and on what server. A cluster is removed by the name
  // under which it was found.
  ghost predicate Legal(cfg: Config, may: Powers, w: Server, x: Change) {
    && (x.Nothing? || may.Deleting? == Removes(x))
    && match x
       case Join(name, g) =>
         && name in w.appSets && !HasOwn(cfg.Me(), w.appSets[name].generators) && Owns(cfg.Me(), g) && Target(cfg, name)
         && Fits(cfg, w, name, w.appSets[name].template, g)
       case Leave(name) => name in w.appSets
       case NewKubeconfig(_) => cfg.Me() !in w.kubeconfigs
       case NewPassword(_) => cfg.Me() !in w.passwords
       case NewCluster(name) =>
         && may.registers && cfg.Registers() && FirstCluster(cfg.Me(), w.clusters) == None
         && HasClusterPrefix(name) && !NameTaken(w.clusters, name)
       case NewArgoSecret(name) => may.adds && !SecretNamed(w.argoSecrets, name)
       case DropArgoSecret(s) => s in MySecrets(cfg.Me(), w.argoSecrets)
       case DropCluster(mc) => Matches(cfg.Me(), mc.labels) && HasClusterPrefix(mc.name)
       case _ => true
  }

  /** The calls lead from `w` to `n`: between them only what Rely allows happens, and each
      makes a legal write on the server it finds. */
  ghost predicate Trace(cfg: Config, may: Powers, w: Server, calls: seq<Call>, n: Server)
    decreases |calls|
  {
    if calls == [] then n == w
    else
      && Rely(cfg.Me(), w, calls[0].before)
      && Legal(cfg, may, calls[0].before, calls[0].change)
      && Trace(cfg, may, Apply(cfg, calls[0].before, calls[0].change), calls[1..], n)
  }

  // -------- the server keeps what it sees to --------

  lemma DistinctWithNew(w: Server, mc: ManagedCluster, s: ArgoSecret)
    ensures DistinctClusters(w.clusters) && !NameTaken(w.clusters, mc.name) ==> DistinctClusters(w.clusters + [mc])
    ensures DistinctSecrets(w.argoSecrets) && !SecretNamed(w.argoSecrets, s.name) ==>
        DistinctSecrets(w.argoSecrets + [s])
  {}

  lemma {:induction false} WithoutSecretMembers(ss: seq<ArgoSecret>, name: string)
    ensures forall y | y in WithoutSecret(ss, name) :: y in ss
  {
    if ss != [] {
      WithoutSecretMembers(ss[1..], name);
    }
  }

  lemma HeadSecretDiffers(ss: seq<ArgoSecret>, y: ArgoSecret)
    requires ss != [] && DistinctSecrets(ss) && y in ss[1..]
    ensures y.name != ss[0].name
  {
    var b :| 0 <= b < |ss[1..]| && ss[1..][b] == y;
    assert ss[b + 1] == y;
  }

  lemma TailDistinct(ss: seq<ArgoSecret>, cs: seq<ManagedCluster>)
    ensures ss != [] && DistinctSecrets(ss) ==> DistinctSecrets(ss[1..])
    ensures cs != [] && DistinctClusters(cs) ==> DistinctClusters(cs[1..])
  {
    if ss != [] {
      assert forall a | 0 <= a < |ss[1..]| :: ss[1..][a] == ss[a + 1];
    }
    if cs != [] {
      assert forall a | 0 <= a < |cs[1..]| :: cs[1..][a] == cs[a + 1];
    }
  }

  lemma {:induction false} WithoutSecretDistinct(ss: seq<ArgoSecret>, name: string)
    requires DistinctSecrets(ss)
    ensures DistinctSecrets(WithoutSecret(ss, name))
  {
    if ss != [] {
      TailDistinct(ss, []);
      WithoutSecretDistinct(ss[1..], name);
      WithoutSecretMembers(ss[1..], name);
      var w := WithoutSecret(ss[1..], name);
      forall a | 0 <= a < |w| ensures w[a].name != ss[0].name {
        HeadSecretDiffers(ss, w[a]);
      }
    }
  }

  lemma {:induction false} WithoutClusterMembers(cs: seq<ManagedCluster>, name: string)
    ensures forall y | y in WithoutCluster(cs, name) :: y in cs
  {
    if cs != [] {
      WithoutClusterMembers(cs[1..], name);
    }
  }

  lemma HeadClusterDiffers(cs: seq<ManagedCluster>, y: ManagedCluster)
    requires cs != [] && DistinctClusters(cs) && y in cs[1..]
    ensures y.name != cs[0].name
  {
    var b :| 0 <= b < |cs[1..]| && cs[1..][b] == y;
    assert cs[b + 1] == y;
  }

  lemma {:induction false} WithoutClusterDistinct(cs: seq<ManagedCluster>, name: string)
    requires DistinctClusters(cs)
    ensures DistinctClusters(WithoutCluster(cs, name))
  {
    if cs != [] {
      TailDistinct([], cs);
      WithoutClusterDistinct(cs[1..], name);
      WithoutClusterMembers(cs[1..], name);
      var w := WithoutCluster(cs[1..], name);
      forall a | 0 <= a < |w| ensures w[a].name != cs[0].name {
        HeadClusterDiffers(cs, w[a]);
      }
    }
  }

  lemma ChangeKeepsServer(cfg: Config, may: Powers, w: Server, x: Change)
    requires ServerOk(w) && Legal(cfg, may, w, x)
    ensures ServerOk(Apply(cfg, w, x))
  {
    match x {
      case NewCluster(name) => DistinctWithNew(w, ManagedCluster(name, ClusterLabels(cfg)), ArgoSecret("", None));
      case NewArgoSecret(name) => DistinctWithNew(w, ManagedCluster("", map[]), ArgoSecret(name, Some(cfg.Me())));
      case DropArgoSecret(s) => WithoutSecretDistinct(w.argoSecrets, s.name);
      case DropCluster(mc) => WithoutClusterDistinct(w.clusters, mc.name);
      case _ =>
    }
    hide MyClusters, MySecrets, WithoutSecret, WithoutCluster, DistinctClusters, DistinctSecrets, Without, FirstCluster,
      ClusterLabels, NameTaken, SecretNamed, HasOwn, Owns, Target;
  }

  // -------- chains --------

  lemma RelySelf(me: Key, w: Server)
    requires ServerOk(w)
    ensures Rely(me, w, w)
  {}

  lemma RelyOn(me: Key, a: Server, b: Server, c: Server)
    requires Rely(me, a, b) && Rely(me, b, c)
    ensures Rely(me, a, c)
  {
    hide Own, MyClusters, MySecrets, DistinctSecrets, DistinctClusters;
  }

  lemma HandledIsRely(cfg: Config, env: Env, w: Server, s: Site)
    requires ServerOk(w)
    ensures Rely(cfg.Me(), w, Handled(cfg, env, w, s)) && ServerOk(Handled(cfg, env, w, s))
  {
    RelySelf(cfg.Me(), w);
    hide Own, MyClusters, MySecrets, DistinctSecrets, DistinctClusters;
  }

  lemma {:induction false} TraceOn(cfg: Config, may: Powers, w: Server, a: seq<Call>, m: Server, b: seq<Call>,
      n: Server)
    requires Trace(cfg, may, w, a, m) && Trace(cfg, may, m, b, n)
    ensures Trace(cfg, may, w, a + b, n)
    decreases |a|
  {
    hide Rely, Legal, Apply;
    if a == [] {
      assert a + b == b;
    } else {
      assert (a + b)[0] == a[0] && (a + b)[1..] == a[1..] + b;
      TraceOn(cfg, may, Apply(cfg, a[0].before, a[0].change), a[1..], m, b, n);
    }
  }

  // One call that reads, and one that may write.
  function Read(cfg: Config, env: Env, w: Server, s: Site): seq<Call> {
    [Call(s, Handled(cfg, env, w, s), Nothing)]
  }

  function Wrote(cfg: Config, env: Env, w: Server, s: Site, x: Change): seq<Call> {
    [Call(s, Handled(cfg, env, w, s), x)]
  }

  // A call that writes leads to what it writes, from wherever the others have gone.
  lemma WroteTrace(cfg: Config, env: Env, may: Powers, w: Server, s: Site, x: Change)
    requires ServerOk(w) && Legal(cfg, may, Handled(cfg, env, w, s), x)
    ensures Trace(cfg, may, w, Wrote(cfg, env, w, s, x), Apply(cfg, Handled(cfg, env, w, s), x))
    ensures ServerOk(Apply(cfg, Handled(cfg, env, w, s), x))
  {
    HandledIsRely(cfg, env, w, s);
    ChangeKeepsServer(cfg, may, Handled(cfg, env, w, s), x);
    hide Rely, Legal, Apply, Handled, ServerOk;
    var calls := Wrote(cfg, env, w, s, x);
    assert calls[1..] == [];
  }

  lemma ReadTrace(cfg: Config, env: Env, may: Powers, w: Server, s: Site)
    requires ServerOk(w)
    ensures Trace(cfg, may, w, Read(cfg, env, w, s), Handled(cfg, env, w, s)) && ServerOk(Handled(cfg, env, w, s))
  {
    WroteTrace(cfg, env, may, w, s, Nothing);
    hide Rely, Handled, ServerOk, Trace;
  }

  // Where the calls lead, with the server in order.
  ghost predicate Leads(cfg: Config, may: Powers, w: Server, calls: seq<Call>, n: Server) {
    Trace(cfg, may, w, calls, n) && ServerOk(n)
  }

  lemma NoCalls(cfg: Config, may: Powers, w: Server)
    requires ServerOk(w)
    ensures Leads(cfg, may, w, [], w)
  {}

  lemma LeadsOn(cfg: Config, may: Powers, w: Server, a: seq<Call>, m: Server, b: seq<Call>, n: Server)
    requires Leads(cfg, may, w, a, m) && Leads(cfg, may, m, b, n)
    ensures Leads(cfg, may, w, a + b, n)
  {
    hide Trace, ServerOk;
    TraceOn(cfg, may, w, a, m, b, n);
  }

  lemma ReadLeads(cfg: Config, env: Env, may: Powers, w: Server, s: Site)
    requires ServerOk(w)
    ensures Leads(cfg, may, w, Read(cfg, env, w, s), Handled(cfg, env, w, s)) && ServerOk(Handled(cfg, env, w, s))
  {
    hide Trace, ServerOk, Handled, Read;
    ReadTrace(cfg, env, may, w, s);
  }

  lemma WroteLeads(cfg: Config, env: Env, may: Powers, w: Server, s: Site, x: Change)
    requires ServerOk(w) && Legal(cfg, may, Handled(cfg, env, w, s), x)
    ensures Leads(cfg, may, w, Wrote(cfg, env, w, s, x), Apply(cfg, Handled(cfg, env, w, s), x))
  {
    hide Trace, ServerOk, Handled, Wrote, Apply, Legal;
    WroteTrace(cfg, env, may, w, s, x);
  }

  // -------- ApplicationSets --------

  // A copy that carries the current version is the current set.
  ghost predicate CopyOf(w: Server, name: string, copy: AppSet) {
    copy.version <= w.rv && (name in w.appSets && w.appSets[name].version == copy.version ==> w.appSets[name] == copy)
  }

  // A copy just taken stays a copy, whatever the others do.
  lemma CopyStays(me: Key, w: Server, n: Server, name: string, copy: AppSet)
    requires CopyOf(w, name, copy) && Rely(me, w, n)
    ensures CopyOf(n, name, copy)
  {
    hide Own, MyClusters, MySecrets, ServerOk;
  }

  lemma CopyTaken(w: Server, name: string)
    requires ServerOk(w) && name in w.appSets
    ensures CopyOf(w, name, w.appSets[name])
  {}

  // The server takes a write of the copy.
  predicate Takes(cfg: Config, env: Env, w: Server, name: string, copy: AppSet, s: Site) {
    var n := Handled(cfg, env, w, s);
    !env.reply(s).outcome.Refused? && name in n.appSets && n.appSets[name].version == copy.version
  }

  function JoinCalls(cfg: Config, env: Env, w: Server, name: string, copy: AppSet, url: string, isDay2: bool,
      s: Site): seq<Call> {
    if HasOwn(cfg.Me(), copy.generators) then []
    else
      Wrote(cfg, env, w, s,
        if Takes(cfg, env, w, name, copy, s)
        then Join(name, NewGenerator(cfg.instance, name, copy.template, url, isDay2)) else Nothing)
  }

  lemma NewFits(cfg: Config, env: Env, w: Server, s: Site, name: string, t: Template, url: string, isDay2: bool)
    requires MeantAs(cfg, w, name, url, isDay2)
    ensures var g := NewGenerator(cfg.instance, name, t, url, isDay2);
      Fits(cfg, Handled(cfg, env, w, s), name, t, g) && Owns(cfg.Me(), g)
  {
    assert Rely(cfg.Me(), w, Handled(cfg, env, w, s)) || Handled(cfg, env, w, s) == w;
    assert MeantAs(cfg, Handled(cfg, env, w, s), name, url, isDay2);
    hide Suits, NewGenerator, Handled, MeantAs, Rely;
    NewGeneratorSuits(cfg.instance, name, t, url, isDay2);
    assert Owns(cfg.Me(), NewGenerator(cfg.instance, name, t, url, isDay2));
  }

  lemma JoinLeads(cfg: Config, env: Env, w: Server, name: string, copy: AppSet, url: string, isDay2: bool, s: Site)
    requires ServerOk(w) && CopyOf(w, name, copy) && Target(cfg, name) && MeantAs(cfg, w, name, url, isDay2)
    ensures Leads(cfg, PLAIN, w, JoinCalls(cfg, env, w, name, copy, url, isDay2, s),
                  JoinAppSet(cfg, env, w, name, copy, url, isDay2, s).0)
  {
    hide Trace, ServerOk, Rely, Own, HasOwn, Target, NewGenerator, Owns, Handled, MeantAs, Suits, Fits;
    NoCalls(cfg, PLAIN, w);
    var n := Handled(cfg, env, w, s);
    HandledIsRely(cfg, env, w, s);
    CopyStays(cfg.Me(), w, n, name, copy);
    NewFits(cfg, env, w, s, name, copy.template, url, isDay2);
    if !HasOwn(cfg.Me(), copy.generators) {
      var x := if Takes(cfg, env, w, name, copy, s)
               then Join(name, NewGenerator(cfg.instance, name, copy.template, url, isDay2)) else Nothing;
      WroteLeads(cfg, env, PLAIN, w, s, x);
      assert JoinAppSet(cfg, env, w, name, copy, url, isDay2, s).0 == Apply(cfg, n, x) by {
        assert n == At(cfg.Me(), w, env.reply(s)) by { SameHandled(cfg, env, w, s); }
      }
    }
  }

  lemma SameHandled(cfg: Config, env: Env, w: Server, s: Site)
    ensures Handled(cfg, env, w, s) == At(cfg.Me(), w, env.reply(s))
  {}

  // A read, and what follows it on the server that it finds.
  lemma ReadThen(cfg: Config, env: Env, may: Powers, w: Server, s: Site, rest: seq<Call>, n: Server)
    requires ServerOk(w) && Leads(cfg, may, Handled(cfg, env, w, s), rest, n)
    ensures Leads(cfg, may, w, Read(cfg, env, w, s) + rest, n)
  {
    hide Trace, ServerOk, Handled, Read;
    ReadLeads(cfg, env, may, w, s);
    LeadsOn(cfg, may, w, Read(cfg, env, w, s), Handled(cfg, env, w, s), rest, n);
  }

  // A read after which nothing follows.
  lemma ReadOnly(cfg: Config, env: Env, may: Powers, w: Server, s: Site)
    requires ServerOk(w)
    ensures ServerOk(Handled(cfg, env, w, s))
    ensures Leads(cfg, may, w, Read(cfg, env, w, s), Handled(cfg, env, w, s))
    ensures Leads(cfg, may, w, Read(cfg, env, w, s) + [], Handled(cfg, env, w, s))
  {
    hide Trace, ServerOk, Handled;
    ReadLeads(cfg, env, may, w, s);
    assert Read(cfg, env, w, s) + [] == Read(cfg, env, w, s);
  }

  function CreateDay1Calls(cfg: Config, env: Env, w: Server): seq<Call> {
    var w1 := Handled(cfg, env, w, GetDefinition);
    Read(cfg, env, w, GetDefinition) +
    if !Ok(env, GetDefinition) || cfg.definition !in w1.appSets then []
    else if !cfg.labelNamespace then
      JoinCalls(cfg, env, w1, cfg.definition, w1.appSets[cfg.definition], "https://kubernetes.default.svc", false,
        UpdateDefinition)
    else
      var w2 := Handled(cfg, env, w1, LabelNamespace);
      Read(cfg, env, w1, LabelNamespace) +
      if !Ok(env, LabelNamespace) then []
      else JoinCalls(cfg, env, w2, cfg.definition, w1.appSets[cfg.definition], "https://kubernetes.default.svc", false,
        UpdateDefinition)
  }

  lemma CreateDay1Leads(cfg: Config, env: Env, w: Server)
    requires ServerOk(w) && cfg.secretRef.None?
    ensures Leads(cfg, PLAIN, w, CreateDay1Calls(cfg, env, w), CreateDay1(cfg, env, w).0)
  {
    assert Target(cfg, cfg.definition);
    hide Leads, ServerOk, Rely, CopyOf, JoinAppSet, JoinCalls, Handled, Read, Target;
    var w1 := Handled(cfg, env, w, GetDefinition);
    ReadOnly(cfg, env, PLAIN, w, GetDefinition);
    if Ok(env, GetDefinition) && cfg.definition in w1.appSets {
      var name, copy, url := cfg.definition, w1.appSets[cfg.definition], "https://kubernetes.default.svc";
      CopyTaken(w1, name);
      if !cfg.labelNamespace {
        JoinLeads(cfg, env, w1, name, copy, url, false, UpdateDefinition);
        ReadThen(cfg, env, PLAIN, w, GetDefinition, JoinCalls(cfg, env, w1, name, copy, url, false, UpdateDefinition),
          JoinAppSet(cfg, env, w1, name, copy, url, false, UpdateDefinition).0);
      } else {
        var w2 := Handled(cfg, env, w1, LabelNamespace);
        ReadOnly(cfg, env, PLAIN, w1, LabelNamespace);
        HandledIsRely(cfg, env, w1, LabelNamespace);
        CopyStays(cfg.Me(), w1, w2, name, copy);
        JoinLeads(cfg, env, w2, name, copy, url, false, UpdateDefinition);
        var calls := JoinCalls(cfg, env, w2, name, copy, url, false, UpdateDefinition);
        var n := JoinAppSet(cfg, env, w2, name, copy, url, false, UpdateDefinition).0;
        ReadThen(cfg, env, PLAIN, w1, LabelNamespace, calls, n);
        ReadThen(cfg, env, PLAIN, w, GetDefinition, Read(cfg, env, w1, LabelNamespace) + calls, n);
        ReadThen(cfg, env, PLAIN, w, GetDefinition, Read(cfg, env, w1, LabelNamespace) + [], w2);
      }
    }
  }

  // -------- credentials --------

  // Get, and create what is not there.
  function EnsureCalls(cfg: Config, env: Env, w: Server, get: Site, create: Site, there: bool, x: Change): seq<Call> {
    Read(cfg, env, w, get) + if !Ok(env, get) || there then []
      else Wrote(cfg, env, Handled(cfg, env, w, get), create, x)
  }

  function Ensured(cfg: Config, env: Env, w: Server, get: Site, create: Site, there: bool, x: Change): Server {
    var w1 := Handled(cfg, env, w, get);
    if !Ok(env, get) || there then w1 else Apply(cfg, Handled(cfg, env, w1, create), x)
  }

  lemma EnsureLeads(cfg: Config, env: Env, may: Powers, w: Server, get: Site, create: Site, there: bool, x: Change)
    requires ServerOk(w)
    requires !there ==> Legal(cfg, may, Handled(cfg, env, Handled(cfg, env, w, get), create), x)
    ensures Leads(cfg, may, w, EnsureCalls(cfg, env, w, get, create, there, x),
        Ensured(cfg, env, w, get, create, there, x))
  {
    hide Leads, ServerOk, Handled, Read, Wrote, Legal, Apply;
    var w1 := Handled(cfg, env, w, get);
    ReadOnly(cfg, env, may, w, get);
    if Ok(env, get) && !there {
      WroteLeads(cfg, env, may, w1, create, x);
      ReadThen(cfg, env, may, w, get, Wrote(cfg, env, w1, create, x), Apply(cfg, Handled(cfg, env, w1, create), x));
    }
  }

  function KubeconfigChange(cfg: Config, env: Env, w: Server, url: string): Change {
    var n := Handled(cfg, env, Handled(cfg, env, w, GetOwnKubeconfig), CreateOwnKubeconfig);
    if !Done(env, CreateOwnKubeconfig) || cfg.Me() in n.kubeconfigs then Nothing else NewKubeconfig(url)
  }

  function KubeconfigCalls(cfg: Config, env: Env, w: Server, url: string): seq<Call> {
    EnsureCalls(cfg, env, w, GetOwnKubeconfig, CreateOwnKubeconfig,
      cfg.Me() in Handled(cfg, env, w, GetOwnKubeconfig).kubeconfigs, KubeconfigChange(cfg, env, w, url))
  }

  lemma KubeconfigLeads(cfg: Config, env: Env, w: Server, url: string)
    requires ServerOk(w)
    ensures Leads(cfg, PLAIN, w, KubeconfigCalls(cfg, env, w, url), CreateKubeconfig(cfg, env, w, url).0)
  {
    hide Leads, ServerOk, Handled, Read, Wrote;
    EnsureLeads(cfg, env, PLAIN, w, GetOwnKubeconfig, CreateOwnKubeconfig,
      cfg.Me() in Handled(cfg, env, w, GetOwnKubeconfig).kubeconfigs, KubeconfigChange(cfg, env, w, url));
  }

  function PasswordChange(cfg: Config, env: Env, w: Server, password: string): Change {
    var n := Handled(cfg, env, Handled(cfg, env, w, GetOwnPassword), CreateOwnPassword);
    if !Done(env, CreateOwnPassword) || cfg.Me() in n.passwords then Nothing else NewPassword(password)
  }

  function PasswordCalls(cfg: Config, env: Env, w: Server, password: string): seq<Call> {
    EnsureCalls(cfg, env, w, GetOwnPassword, CreateOwnPassword,
      cfg.Me() in Handled(cfg, env, w, GetOwnPassword).passwords, PasswordChange(cfg, env, w, password))
  }

  lemma PasswordLeads(cfg: Config, env: Env, w: Server, password: string)
    requires ServerOk(w)
    ensures Leads(cfg, PLAIN, w, PasswordCalls(cfg, env, w, password), CreatePassword(cfg, env, w, password).0)
  {
    hide Leads, ServerOk, Handled, Read, Wrote;
    EnsureLeads(cfg, env, PLAIN, w, GetOwnPassword, CreateOwnPassword,
      cfg.Me() in Handled(cfg, env, w, GetOwnPassword).passwords, PasswordChange(cfg, env, w, password));
  }

  function SecretsCalls(cfg: Config, env: Env, w: Server, url: string, password: string): seq<Call> {
    var (w1, ok) := CreateKubeconfig(cfg, env, w, url);
    KubeconfigCalls(cfg, env, w, url) + if !ok || password == "" then [] else PasswordCalls(cfg, env, w1, password)
  }

  lemma SecretsLead(cfg: Config, env: Env, w: Server, url: string, password: string)
    requires ServerOk(w)
    ensures Leads(cfg, PLAIN, w, SecretsCalls(cfg, env, w, url, password),
        CreateClusterSecrets(cfg, env, w, url, password).0)
  {
    hide Trace, ServerOk, KubeconfigCalls, PasswordCalls, CreateKubeconfig, CreatePassword;
    var (w1, ok) := CreateKubeconfig(cfg, env, w, url);
    KubeconfigLeads(cfg, env, w, url);
    NoCalls(cfg, PLAIN, w1);
    PasswordLeads(cfg, env, w1, password);
    var rest := if !ok || password == "" then [] else PasswordCalls(cfg, env, w1, password);
    LeadsOn(cfg, PLAIN, w, KubeconfigCalls(cfg, env, w, url), w1, rest,
      CreateClusterSecrets(cfg, env, w, url, password).0);
  }

  // -------- providers --------

  function DeploymentSecretsCalls(cfg: Config, env: Env, w: Server): seq<Call> {
    var v := env.provider;
    if !v.deployment.passwordRef || !v.deployment.kubeconfigRef then []
    else
      var w1 := Handled(cfg, env, w, GetProviderKubeconfig);
      Read(cfg, env, w, GetProviderKubeconfig) +
      if !Ok(env, GetProviderKubeconfig) || v.kubeconfig == None then []
      else
        var w2 := Handled(cfg, env, w1, GetProviderPassword);
        Read(cfg, env, w1, GetProviderPassword) +
        if !Ok(env, GetProviderPassword) || !v.hasUsername || v.password == None then []
        else SecretsCalls(cfg, env, w2, v.kubeconfig.value, v.password.value)
  }

  lemma DeploymentSecretsLead(cfg: Config, env: Env, w: Server)
    requires ServerOk(w)
    ensures Leads(cfg, PLAIN, w, DeploymentSecretsCalls(cfg, env, w), DeploymentSecrets(cfg, env, w).0)
  {
    hide Leads, ServerOk, Handled, Read, SecretsCalls, CreateClusterSecrets;
    NoCalls(cfg, PLAIN, w);
    var v := env.provider;
    var w1 := Handled(cfg, env, w, GetProviderKubeconfig);
    ReadOnly(cfg, env, PLAIN, w, GetProviderKubeconfig);
    if v.kubeconfig.Some? {
      var w2 := Handled(cfg, env, w1, GetProviderPassword);
      ReadOnly(cfg, env, PLAIN, w1, GetProviderPassword);
      ReadThen(cfg, env, PLAIN, w, GetProviderKubeconfig, Read(cfg, env, w1, GetProviderPassword) + [], w2);
      if v.password.Some? {
        var calls := SecretsCalls(cfg, env, w2, v.kubeconfig.value, v.password.value);
        var n := CreateClusterSecrets(cfg, env, w2, v.kubeconfig.value, v.password.value).0;
        SecretsLead(cfg, env, w2, v.kubeconfig.value, v.password.value);
        ReadThen(cfg, env, PLAIN, w1, GetProviderPassword, calls, n);
        ReadThen(cfg, env, PLAIN, w, GetProviderKubeconfig, Read(cfg, env, w1, GetProviderPassword) + calls, n);
      }
    }
  }

  function DeploymentCalls(cfg: Config, env: Env, w: Server): seq<Call> {
    var w1 := Handled(cfg, env, w, GetProviderObject);
    Read(cfg, env, w, GetProviderObject) +
    if !Ok(env, GetProviderObject) || !FirstIsTrue(env.provider.deployment.conditions) then []
    else DeploymentSecretsCalls(cfg, env, w1)
  }

  lemma DeploymentLeads(cfg: Config, env: Env, w: Server)
    requires ServerOk(w)
    ensures Leads(cfg, PLAIN, w, DeploymentCalls(cfg, env, w), DeploymentStatus(cfg, env, w).0)
  {
    hide Leads, ServerOk, Handled, Read, DeploymentSecretsCalls, DeploymentSecrets, FirstIsTrue;
    var w1 := Handled(cfg, env, w, GetProviderObject);
    ReadOnly(cfg, env, PLAIN, w, GetProviderObject);
    DeploymentSecretsLead(cfg, env, w1);
    ReadThen(cfg, env, PLAIN, w, GetProviderObject, DeploymentSecretsCalls(cfg, env, w1),
      DeploymentSecrets(cfg, env, w1).0);
  }

  function ClaimCalls(cfg: Config, env: Env, w: Server): seq<Call> {
    var w1 := Handled(cfg, env, w, GetProviderObject);
    Read(cfg, env, w, GetProviderObject) +
    if !Ok(env, GetProviderObject) || !env.provider.claimBound then []
    else
      var w2 := Handled(cfg, env, w1, GetClaimedDeployment);
      Read(cfg, env, w1, GetClaimedDeployment) +
      if !Ok(env, GetClaimedDeployment) then [] else DeploymentSecretsCalls(cfg, env, w2)
  }

  lemma ClaimLeads(cfg: Config, env: Env, w: Server)
    requires ServerOk(w)
    ensures Leads(cfg, PLAIN, w, ClaimCalls(cfg, env, w), ClaimStatus(cfg, env, w).0)
  {
    hide Leads, ServerOk, Handled, Read, DeploymentSecretsCalls, DeploymentSecrets;
    var w1 := Handled(cfg, env, w, GetProviderObject);
    ReadOnly(cfg, env, PLAIN, w, GetProviderObject);
    var w2 := Handled(cfg, env, w1, GetClaimedDeployment);
    ReadOnly(cfg, env, PLAIN, w1, GetClaimedDeployment);
    ReadThen(cfg, env, PLAIN, w, GetProviderObject, Read(cfg, env, w1, GetClaimedDeployment) + [], w2);
    var calls, n := DeploymentSecretsCalls(cfg, env, w2), DeploymentSecrets(cfg, env, w2).0;
    DeploymentSecretsLead(cfg, env, w2);
    ReadThen(cfg, env, PLAIN, w1, GetClaimedDeployment, calls, n);
    ReadThen(cfg, env, PLAIN, w, GetProviderObject, Read(cfg, env, w1, GetClaimedDeployment) + calls, n);
  }

  function PoolsCalls(cfg: Config, env: Env, p: Provider, w: Server): seq<Call>
    requires p.HostedProvider?
  {
    if p.nodePools == [] then [] else Read(cfg, env, w, ListNodePools)
  }

  function HostedFinishCalls(cfg: Config, env: Env, p: Provider, w: Server, url: string, password: string): seq<Call>
    requires p.HostedProvider?
  {
    var (w1, ok) := CreateClusterSecrets(cfg, env, w, url, password);
    SecretsCalls(cfg, env, w, url, password) + if !ok then [] else PoolsCalls(cfg, env, p, w1)
  }

  // The end of HostedStatus.
  function HostedFinish(cfg: Config, env: Env, p: Provider, w: Server, url: string, password: string): Server
    requires p.HostedProvider?
  {
    var (w1, ok) := CreateClusterSecrets(cfg, env, w, url, password);
    if !ok then w1 else HostedPools(cfg, env, p, w1).0
  }

  lemma HostedFinishLeads(cfg: Config, env: Env, p: Provider, w: Server, url: string, password: string)
    requires ServerOk(w) && p.HostedProvider?
    ensures Leads(cfg, PLAIN, w, HostedFinishCalls(cfg, env, p, w, url, password),
        HostedFinish(cfg, env, p, w, url, password))
  {
    hide Trace, ServerOk, Handled, Read, SecretsCalls, CreateClusterSecrets, PoolsReady;
    var (w1, ok) := CreateClusterSecrets(cfg, env, w, url, password);
    SecretsLead(cfg, env, w, url, password);
    NoCalls(cfg, PLAIN, w1);
    ReadOnly(cfg, env, PLAIN, w1, ListNodePools);
    LeadsOn(cfg, PLAIN, w, SecretsCalls(cfg, env, w, url, password), w1,
      if !ok then [] else PoolsCalls(cfg, env, p, w1), HostedFinish(cfg, env, p, w, url, password));
  }

  function HostedCalls(cfg: Config, env: Env, p: Provider, w: Server): seq<Call>
    requires p.HostedProvider?
  {
    var v := env.provider;
    var w1 := Handled(cfg, env, w, GetProviderObject);
    Read(cfg, env, w, GetProviderObject) +
    if !Ok(env, GetProviderObject) || !LastIsTrue(v.hosted.conditions) || !v.hosted.kubeconfigRef then []
    else
      var w2 := Handled(cfg, env, w1, GetProviderKubeconfig);
      Read(cfg, env, w1, GetProviderKubeconfig) +
      if !Ok(env, GetProviderKubeconfig) || v.kubeconfig == None || (!v.hosted.idps && !v.hosted.passwordRef) then []
      else if v.hosted.idps then HostedFinishCalls(cfg, env, p, w2, v.kubeconfig.value, "")
      else
        Read(cfg, env, w2, GetProviderPassword) +
        if !Ok(env, GetProviderPassword) || v.password == None then []
        else HostedFinishCalls(cfg, env, p, Handled(cfg, env, w2, GetProviderPassword), v.kubeconfig.value,
          v.password.value)
  }

  lemma HostedTail(cfg: Config, env: Env, p: Provider, w: Server, calls: seq<Call>, n: Server)
    requires ServerOk(w)
    requires var w2 := Handled(cfg, env, Handled(cfg, env, w, GetProviderObject), GetProviderKubeconfig);
      Leads(cfg, PLAIN, w2, calls, n)
    ensures var w1 := Handled(cfg, env, w, GetProviderObject);
      Leads(cfg, PLAIN, w, Read(cfg, env, w, GetProviderObject) + (Read(cfg, env, w1, GetProviderKubeconfig) + calls),
        n)
  {
    hide Leads, ServerOk, Handled, Read;
    var w1 := Handled(cfg, env, w, GetProviderObject);
    ReadOnly(cfg, env, PLAIN, w, GetProviderObject);
    ReadThen(cfg, env, PLAIN, w1, GetProviderKubeconfig, calls, n);
    ReadThen(cfg, env, PLAIN, w, GetProviderObject, Read(cfg, env, w1, GetProviderKubeconfig) + calls, n);
  }

  lemma HostedLeads(cfg: Config, env: Env, p: Provider, w: Server)
    requires ServerOk(w) && p.HostedProvider?
    ensures Leads(cfg, PLAIN, w, HostedCalls(cfg, env, p, w), HostedStatus(cfg, env, p, w).0)
  {
    hide Leads, ServerOk, Handled, Read, HostedFinishCalls, CreateClusterSecrets, HostedPools, LastIsTrue;
    var v := env.provider;
    var w1 := Handled(cfg, env, w, GetProviderObject);
    ReadOnly(cfg, env, PLAIN, w, GetProviderObject);
    var w2 := Handled(cfg, env, w1, GetProviderKubeconfig);
    ReadOnly(cfg, env, PLAIN, w1, GetProviderKubeconfig);
    NoCalls(cfg, PLAIN, w2);
    HostedTail(cfg, env, p, w, [], w2);
    if v.kubeconfig.Some? && v.hosted.idps {
      HostedFinishLeads(cfg, env, p, w2, v.kubeconfig.value, "");
      HostedTail(cfg, env, p, w, HostedFinishCalls(cfg, env, p, w2, v.kubeconfig.value, ""),
        HostedFinish(cfg, env, p, w2, v.kubeconfig.value, ""));
    } else if v.kubeconfig.Some? {
      var w3 := Handled(cfg, env, w2, GetProviderPassword);
      ReadOnly(cfg, env, PLAIN, w2, GetProviderPassword);
      HostedTail(cfg, env, p, w, Read(cfg, env, w2, GetProviderPassword) + [], w3);
      if v.password.Some? {
        var calls := HostedFinishCalls(cfg, env, p, w3, v.kubeconfig.value, v.password.value);
        var n := HostedFinish(cfg, env, p, w3, v.kubeconfig.value, v.password.value);
        HostedFinishLeads(cfg, env, p, w3, v.kubeconfig.value, v.password.value);
        ReadThen(cfg, env, PLAIN, w2, GetProviderPassword, calls, n);
        HostedTail(cfg, env, p, w, Read(cfg, env, w2, GetProviderPassword) + calls, n);
      }
    }
  }

  function ProviderCalls(cfg: Config, env: Env, p: Provider, w: Server): seq<Call> {
    match p
    case HostedProvider(_, _, _) => HostedCalls(cfg, env, p, w)
    case DeploymentProvider(_, _) => DeploymentCalls(cfg, env, w)
    case ClaimProvider(_, _) => ClaimCalls(cfg, env, w)
  }

  lemma ProviderLeads(cfg: Config, env: Env, p: Provider, w: Server)
    requires ServerOk(w)
    ensures Leads(cfg, PLAIN, w, ProviderCalls(cfg, env, p, w), GetClusterStatus(cfg, env, p, w).0)
  {
    hide Leads, ServerOk, HostedCalls, DeploymentCalls, ClaimCalls, HostedStatus, DeploymentStatus, ClaimStatus;
    match p {
      case HostedProvider(_, _, _) => HostedLeads(cfg, env, p, w);
      case DeploymentProvider(_, _) => DeploymentLeads(cfg, env, w);
      case ClaimProvider(_, _) => ClaimLeads(cfg, env, w);
    }
  }

  // -------- registration --------

  function ClusterChange(cfg: Config, env: Env, w: Server): Change {
    var n := Handled(cfg, env, Handled(cfg, env, w, ListBeforeCreate), CreateCluster);
    var name := "cluster-" + env.newSuffix;
    if !Done(env, CreateCluster) || NameTaken(n.clusters, name) then Nothing else NewCluster(name)
  }

  function ClusterCalls(cfg: Config, env: Env, w: Server): seq<Call> {
    EnsureCalls(cfg, env, w, ListBeforeCreate, CreateCluster,
      FirstCluster(cfg.Me(), Handled(cfg, env, w, ListBeforeCreate).clusters).Some?, ClusterChange(cfg, env, w))
  }

  lemma StillNone(me: Key, w: Server, n: Server)
    requires Rely(me, w, n)
    ensures FirstCluster(me, w.clusters) == None ==> FirstCluster(me, n.clusters) == None
  {
    if FirstCluster(me, w.clusters) == None {
      NoneFoundLater(me, w.clusters, n.clusters);
    }
  }

  lemma ClusterLeads(cfg: Config, env: Env, w: Server)
    requires ServerOk(w) && cfg.Registers()
    ensures Leads(cfg, REGISTERING, w, ClusterCalls(cfg, env, w), CreateManagedCluster(cfg, env, w).0)
  {
    hide Leads, ServerOk, Rely, Handled, Read, Wrote, FirstCluster, NameTaken, ClusterLabels;
    var w1 := Handled(cfg, env, w, ListBeforeCreate);
    HandledIsRely(cfg, env, w, ListBeforeCreate);
    HandledIsRely(cfg, env, w1, CreateCluster);
    StillNone(cfg.Me(), w1, Handled(cfg, env, w1, CreateCluster));
    EnsureLeads(cfg, env, REGISTERING, w, ListBeforeCreate, CreateCluster, FirstCluster(cfg.Me(), w1.clusters).Some?,
      ClusterChange(cfg, env, w));
  }

  function RegisterCalls(cfg: Config, env: Env, st: St): seq<Call> {
    if !Gate(st, ClusterInstallSucceeded, Some(ManagedClusterCreated)) || !cfg.Registers() then []
    else
      var (w, ok) := CreateManagedCluster(cfg, env, st.hub);
      ClusterCalls(cfg, env, st.hub) + if !ok then [] else Read(cfg, env, w, ListAfterCreate)
  }

  lemma RegisterLeads(cfg: Config, env: Env, st: St)
    requires ServerOk(st.hub)
    ensures Leads(cfg, REGISTERING, st.hub, RegisterCalls(cfg, env, st),
        ReconcileCreateManagedCluster(cfg, env, st).st.hub)
  {
    hide Trace, ServerOk, Handled, Read, ClusterCalls, CreateManagedCluster, FirstCluster, Gate, Conditions.Write;
    NoCalls(cfg, REGISTERING, st.hub);
    if cfg.Registers() {
      var (w, ok) := CreateManagedCluster(cfg, env, st.hub);
      ClusterLeads(cfg, env, st.hub);
      NoCalls(cfg, REGISTERING, w);
      ReadOnly(cfg, env, REGISTERING, w, ListAfterCreate);
      LeadsOn(cfg, REGISTERING, st.hub, ClusterCalls(cfg, env, st.hub), w,
        if !ok then [] else Read(cfg, env, w, ListAfterCreate),
        if !ok then w else Handled(cfg, env, w, ListAfterCreate));
    }
  }

  // What is missing of the two objects that hang on the managed cluster.
  function ImportChange(cfg: Config, env: Env, w: Server, name: string): Change {
    var n := Handled(cfg, env, Handled(cfg, env, w, GetImportSecret), CreateImportSecret);
    if !Done(env, CreateImportSecret) || name in n.importSecrets then Nothing else NewImportSecret(name)
  }

  function ImportCalls(cfg: Config, env: Env, w: Server): seq<Call> {
    var w1 := Handled(cfg, env, w, ListForImport);
    var mc := FirstCluster(cfg.Me(), w1.clusters);
    Read(cfg, env, w, ListForImport) +
    if !Ok(env, ListForImport) || mc == None then []
    else
      var w2 := Handled(cfg, env, w1, GetKubeconfigForImport);
      Read(cfg, env, w1, GetKubeconfigForImport) +
      if !Ok(env, GetKubeconfigForImport) || cfg.Me() !in w2.kubeconfigs then []
      else
        EnsureCalls(cfg, env, w2, GetImportSecret, CreateImportSecret,
          mc.value.name in Handled(cfg, env, w2, GetImportSecret).importSecrets,
          ImportChange(cfg, env, w2, mc.value.name))
  }

  lemma ImportLeads(cfg: Config, env: Env, w: Server)
    requires ServerOk(w)
    ensures Leads(cfg, PLAIN, w, ImportCalls(cfg, env, w), EnsureImportSecret(cfg, env, w).0)
  {
    hide Leads, ServerOk, Handled, Read, EnsureCalls, FirstCluster;
    var w1 := Handled(cfg, env, w, ListForImport);
    var mc := FirstCluster(cfg.Me(), w1.clusters);
    ReadOnly(cfg, env, PLAIN, w, ListForImport);
    var w2 := Handled(cfg, env, w1, GetKubeconfigForImport);
    ReadOnly(cfg, env, PLAIN, w1, GetKubeconfigForImport);
    ReadThen(cfg, env, PLAIN, w, ListForImport, Read(cfg, env, w1, GetKubeconfigForImport) + [], w2);
    if mc.Some? {
      var there := mc.value.name in Handled(cfg, env, w2, GetImportSecret).importSecrets;
      var x := ImportChange(cfg, env, w2, mc.value.name);
      EnsureLeads(cfg, env, PLAIN, w2, GetImportSecret, CreateImportSecret, there, x);
      var calls := EnsureCalls(cfg, env, w2, GetImportSecret, CreateImportSecret, there, x);
      var n := Ensured(cfg, env, w2, GetImportSecret, CreateImportSecret, there, x);
      ReadThen(cfg, env, PLAIN, w1, GetKubeconfigForImport, calls, n);
      ReadThen(cfg, env, PLAIN, w, ListForImport, Read(cfg, env, w1, GetKubeconfigForImport) + calls, n);
    }
  }

  function KlusterletChange(cfg: Config, env: Env, w: Server, name: string): Change {
    var n := Handled(cfg, env, Handled(cfg, env, w, GetKlusterlet), CreateKlusterlet);
    if !Done(env, CreateKlusterlet) || name in n.klusterlets then Nothing else NewKlusterlet(name)
  }

  function KlusterletCalls(cfg: Config, env: Env, w: Server): seq<Call> {
    var w1 := Handled(cfg, env, w, ListForKlusterlet);
    var mc := FirstCluster(cfg.Me(), w1.clusters);
    Read(cfg, env, w, ListForKlusterlet) +
    if !Ok(env, ListForKlusterlet) || mc == None then []
    else
      EnsureCalls(cfg, env, w1, GetKlusterlet, CreateKlusterlet,
        mc.value.name in Handled(cfg, env, w1, GetKlusterlet).klusterlets,
        KlusterletChange(cfg, env, w1, mc.value.name))
  }

  lemma KlusterletLeads(cfg: Config, env: Env, w: Server)
    requires ServerOk(w)
    ensures Leads(cfg, PLAIN, w, KlusterletCalls(cfg, env, w), EnsureKlusterlet(cfg, env, w).0)
  {
    hide Leads, ServerOk, Handled, Read, EnsureCalls, FirstCluster;
    var w1 := Handled(cfg, env, w, ListForKlusterlet);
    var mc := FirstCluster(cfg.Me(), w1.clusters);
    ReadOnly(cfg, env, PLAIN, w, ListForKlusterlet);
    if mc.Some? {
      var there := mc.value.name in Handled(cfg, env, w1, GetKlusterlet).klusterlets;
      var x := KlusterletChange(cfg, env, w1, mc.value.name);
      EnsureLeads(cfg, env, PLAIN, w1, GetKlusterlet, CreateKlusterlet, there, x);
      ReadThen(cfg, env, PLAIN, w, ListForKlusterlet,
        EnsureCalls(cfg, env, w1, GetKlusterlet, CreateKlusterlet, there, x),
        Ensured(cfg, env, w1, GetKlusterlet, CreateKlusterlet, there, x));
    }
  }

  // -------- argo cluster --------

  function ArgoSecretChange(cfg: Config, env: Env, w: Server, name: string): Change {
    var n := Handled(cfg, env, Handled(cfg, env, w, GetArgoSecret), CreateArgoSecret);
    if !Done(env, CreateArgoSecret) || SecretNamed(n.argoSecrets, name) then Nothing else NewArgoSecret(name)
  }

  function ArgoSecretCalls(cfg: Config, env: Env, w: Server, name: string): seq<Call> {
    EnsureCalls(cfg, env, w, GetArgoSecret, CreateArgoSecret,
      SecretNamed(Handled(cfg, env, w, GetArgoSecret).argoSecrets, name), ArgoSecretChange(cfg, env, w, name))
  }

  lemma ArgoSecretLeads(cfg: Config, env: Env, w: Server, name: string)
    requires ServerOk(w)
    ensures Leads(cfg, ADDING, w, ArgoSecretCalls(cfg, env, w, name), EnsureArgoSecret(cfg, env, w, name).0)
  {
    hide Leads, ServerOk, Handled, Read, Wrote, SecretNamed;
    EnsureLeads(cfg, env, ADDING, w, GetArgoSecret, CreateArgoSecret,
      SecretNamed(Handled(cfg, env, w, GetArgoSecret).argoSecrets, name), ArgoSecretChange(cfg, env, w, name));
  }

  // FinishArgo once the name is known.
  function NamedCalls(cfg: Config, env: Env, w: Server, name: string): seq<Call> {
    if !cfg.Registers() then ArgoSecretCalls(cfg, env, w, name)
    else
      var w1 := Handled(cfg, env, w, ListForArgo);
      Read(cfg, env, w, ListForArgo) +
      if !Ok(env, ListForArgo) || FirstCluster(cfg.Me(), w1.clusters) == None then []
        else ArgoSecretCalls(cfg, env, w1, name)
  }

  function Named(cfg: Config, env: Env, w: Server, name: string): Server {
    var w1 := if cfg.Registers() then Handled(cfg, env, w, ListForArgo) else w;
    if cfg.Registers() && (!Ok(env, ListForArgo) || FirstCluster(cfg.Me(), w1.clusters) == None) then w1
    else EnsureArgoSecret(cfg, env, w1, name).0
  }

  lemma NamedLeads(cfg: Config, env: Env, w: Server, name: string)
    requires ServerOk(w)
    ensures Leads(cfg, ADDING, w, NamedCalls(cfg, env, w, name), Named(cfg, env, w, name))
  {
    hide Leads, ServerOk, Handled, Read, ArgoSecretCalls, EnsureArgoSecret, FirstCluster;
    var w1 := Handled(cfg, env, w, ListForArgo);
    ReadOnly(cfg, env, ADDING, w, ListForArgo);
    ArgoSecretLeads(cfg, env, w, name);
    ArgoSecretLeads(cfg, env, w1, name);
    ReadThen(cfg, env, ADDING, w, ListForArgo, ArgoSecretCalls(cfg, env, w1, name),
      EnsureArgoSecret(cfg, env, w1, name).0);
  }

  function FinishCalls(cfg: Config, env: Env, w: Server): seq<Call> {
    var name := ArgoSecretName(cfg, env);
    if cfg.secretRef.Some? then NamedCalls(cfg, env, w, name.value)
    else
      Read(cfg, env, w, ListDay1ForArgo) +
      if name == None then [] else NamedCalls(cfg, env, Handled(cfg, env, w, ListDay1ForArgo), name.value)
  }

  lemma FinishLeads(cfg: Config, env: Env, w: Server)
    requires ServerOk(w)
    ensures Leads(cfg, ADDING, w, FinishCalls(cfg, env, w), FinishArgo(cfg, env, w).0)
  {
    hide Leads, ServerOk, Handled, Read, NamedCalls, EnsureArgoSecret, FirstCluster;
    var name := ArgoSecretName(cfg, env);
    if cfg.secretRef.Some? {
      NamedLeads(cfg, env, w, name.value);
    } else {
      var w1 := Handled(cfg, env, w, ListDay1ForArgo);
      ReadOnly(cfg, env, ADDING, w, ListDay1ForArgo);
      if name.Some? {
        NamedLeads(cfg, env, w1, name.value);
        ReadThen(cfg, env, ADDING, w, ListDay1ForArgo, NamedCalls(cfg, env, w1, name.value),
          Named(cfg, env, w1, name.value));
      }
    }
  }

  function AddCalls(cfg: Config, env: Env, w: Server): seq<Call> {
    var w1 := Handled(cfg, env, w, GetKubeconfigForArgo);
    Read(cfg, env, w, GetKubeconfigForArgo) +
    if !Ok(env, GetKubeconfigForArgo) || cfg.Me() !in w1.kubeconfigs || !env.login then []
    else
      Read(cfg, env, w1, PrepareNewCluster) +
      if !Ok(env, PrepareNewCluster) then [] else FinishCalls(cfg, env, Handled(cfg, env, w1, PrepareNewCluster))
  }

  lemma AddLeads(cfg: Config, env: Env, st: St)
    requires ServerOk(st.hub)
    ensures Leads(cfg, ADDING, st.hub, AddCalls(cfg, env, st.hub), AddClusterToArgo(cfg, env, st).st.hub)
  {
    hide Leads, ServerOk, Handled, Read, FinishCalls, FinishArgo;
    var w1 := Handled(cfg, env, st.hub, GetKubeconfigForArgo);
    ReadOnly(cfg, env, ADDING, st.hub, GetKubeconfigForArgo);
    var w2 := Handled(cfg, env, w1, PrepareNewCluster);
    ReadOnly(cfg, env, ADDING, w1, PrepareNewCluster);
    ReadThen(cfg, env, ADDING, st.hub, GetKubeconfigForArgo, Read(cfg, env, w1, PrepareNewCluster) + [], w2);
    FinishLeads(cfg, env, w2);
    ReadThen(cfg, env, ADDING, w1, PrepareNewCluster, FinishCalls(cfg, env, w2), FinishArgo(cfg, env, w2).0);
    ReadThen(cfg, env, ADDING, st.hub, GetKubeconfigForArgo,
      Read(cfg, env, w1, PrepareNewCluster) + FinishCalls(cfg, env, w2),
      FinishArgo(cfg, env, w2).0);
  }

  // -------- cluster setup --------

  function FetchCalls(cfg: Config, env: Env, w: Server, i: nat, failOnMissing: bool): seq<Call>
    requires i <= |cfg.setups|
    decreases |cfg.setups| - i
  {
    if i == |cfg.setups| then []
    else
      var w1 := Handled(cfg, env, w, GetSetup(i));
      Read(cfg, env, w, GetSetup(i)) +
      if !Ok(env, GetSetup(i)) || (cfg.setups[i] !in w1.appSets && failOnMissing) then []
      else FetchCalls(cfg, env, w1, i + 1, failOnMissing)
  }

  // The object that the look-up hands out is a copy at its end, and with every missing set
  // an error it is the last one named.
  ghost predicate FetchGood(cfg: Config, i: nat, failOnMissing: bool, f: Fetched) {
    && (f.last.Some? ==> CopyOf(f.hub, f.last.value.0, f.last.value.1))
    && (f.ok && failOnMissing && i < |cfg.setups| ==> f.last.Some? && f.last.value.0 == cfg.setups[|cfg.setups| - 1])
  }

  lemma {:induction false} FetchLeads(cfg: Config, env: Env, may: Powers, w: Server, i: nat, failOnMissing: bool,
      sofar: Fetched)
    requires ServerOk(w) && i <= |cfg.setups|
    requires sofar.last.Some? ==> CopyOf(w, sofar.last.value.0, sofar.last.value.1)
    ensures var f := FetchSetups(cfg, env, w, i, failOnMissing, sofar);
      Leads(cfg, may, w, FetchCalls(cfg, env, w, i, failOnMissing), f.hub) && FetchGood(cfg, i, failOnMissing, f)
    decreases |cfg.setups| - i
  {
    hide Leads, ServerOk, Rely, CopyOf, Handled, Read;
    NoCalls(cfg, may, w);
    if i < |cfg.setups| {
      var w1 := Handled(cfg, env, w, GetSetup(i));
      var name := cfg.setups[i];
      ReadOnly(cfg, env, may, w, GetSetup(i));
      HandledIsRely(cfg, env, w, GetSetup(i));
      if name in w1.appSets {
        CopyTaken(w1, name);
      }
      if sofar.last.Some? {
        CopyStays(cfg.Me(), w, w1, sofar.last.value.0, sofar.last.value.1);
      }
      var next := if name in w1.appSets then Fetched(w1, true, sofar.count + 1, Some((name, w1.appSets[name])))
        else sofar;
      FetchLeads(cfg, env, may, w1, i + 1, failOnMissing, next);
      ReadThen(cfg, env, may, w, GetSetup(i), FetchCalls(cfg, env, w1, i + 1, failOnMissing),
        FetchSetups(cfg, env, w1, i + 1, failOnMissing, next).hub);
    }
  }

  function CreateDay2Calls(cfg: Config, env: Env, w: Server): seq<Call> {
    var f := FetchSetups(cfg, env, w, 0, true, NothingFetched(w));
    FetchCalls(cfg, env, w, 0, true) +
    if !f.ok then []
    else
      var w1 := Handled(cfg, env, f.hub, GetKubeconfigForSetup);
      Read(cfg, env, f.hub, GetKubeconfigForSetup) +
      if !Ok(env, GetKubeconfigForSetup) || cfg.Me() !in w1.kubeconfigs || f.last == None then []
      else JoinCalls(cfg, env, w1, f.last.value.0, f.last.value.1, w1.kubeconfigs[cfg.Me()], true, UpdateSetup(0))
  }

  lemma CreateDay2Leads(cfg: Config, env: Env, w: Server)
    requires ServerOk(w) && cfg.setups != []
    ensures Leads(cfg, PLAIN, w, CreateDay2Calls(cfg, env, w), CreateDay2(cfg, env, w).0)
  {
    hide Trace, ServerOk, Rely, CopyOf, Handled, Read, FetchCalls, FetchSetups, JoinCalls, JoinAppSet;
    var f := FetchSetups(cfg, env, w, 0, true, NothingFetched(w));
    FetchLeads(cfg, env, PLAIN, w, 0, true, NothingFetched(w));
    NoCalls(cfg, PLAIN, f.hub);
    var w1 := Handled(cfg, env, f.hub, GetKubeconfigForSetup);
    ReadOnly(cfg, env, PLAIN, f.hub, GetKubeconfigForSetup);
    HandledIsRely(cfg, env, f.hub, GetKubeconfigForSetup);
    LeadsOn(cfg, PLAIN, w, FetchCalls(cfg, env, w, 0, true), f.hub, [], f.hub);
    LeadsOn(cfg, PLAIN, w, FetchCalls(cfg, env, w, 0, true), f.hub, Read(cfg, env, f.hub, GetKubeconfigForSetup) + [],
      w1);
    if f.ok && cfg.Me() in w1.kubeconfigs {
      var l, url := f.last.value, w1.kubeconfigs[cfg.Me()];
      CopyStays(cfg.Me(), f.hub, w1, l.0, l.1);
      JoinLeads(cfg, env, w1, l.0, l.1, url, true, UpdateSetup(0));
      var calls := JoinCalls(cfg, env, w1, l.0, l.1, url, true, UpdateSetup(0));
      var n := JoinAppSet(cfg, env, w1, l.0, l.1, url, true, UpdateSetup(0)).0;
      ReadThen(cfg, env, PLAIN, f.hub, GetKubeconfigForSetup, calls, n);
      LeadsOn(cfg, PLAIN, w, FetchCalls(cfg, env, w, 0, true), f.hub,
        Read(cfg, env, f.hub, GetKubeconfigForSetup) + calls, n);
    }
  }

  function PublishCalls(cfg: Config, env: Env, st: St): seq<Call> {
    var w1 := if st.status.apiServerURL == "" then Handled(cfg, env, st.hub, GetKubeconfigForCredentials) else st.hub;
    (if st.status.apiServerURL == "" then Read(cfg, env, st.hub, GetKubeconfigForCredentials) else []) +
    if st.status.apiServerURL == "" && (!Ok(env, GetKubeconfigForCredentials) || cfg.Me() !in w1.kubeconfigs) then []
    else
      Read(cfg, env, w1, ListSetupSecrets) +
      if !Ok(env, ListSetupSecrets) then [] else Read(cfg, env, Handled(cfg, env, w1, ListSetupSecrets), ReconcileRoles)
  }

  lemma PublishLeads(cfg: Config, env: Env, st: St)
    requires ServerOk(st.hub)
    ensures Leads(cfg, PLAIN, st.hub, PublishCalls(cfg, env, st), PublishCredentials(cfg, env, st).st.hub)
  {
    hide Trace, ServerOk, Handled, Read, AddSecrets;
    var w := st.hub;
    NoCalls(cfg, PLAIN, w);
    var first := if w == st.hub && st.status.apiServerURL == "" then Read(cfg, env, w, GetKubeconfigForCredentials)
      else [];
    var w1 := if st.status.apiServerURL == "" then Handled(cfg, env, w, GetKubeconfigForCredentials) else w;
    ReadOnly(cfg, env, PLAIN, w, GetKubeconfigForCredentials);
    NoCalls(cfg, PLAIN, w1);
    LeadsOn(cfg, PLAIN, w, first, w1, [], w1);
    var w2 := Handled(cfg, env, w1, ListSetupSecrets);
    ReadOnly(cfg, env, PLAIN, w1, ListSetupSecrets);
    ReadOnly(cfg, env, PLAIN, w2, ReconcileRoles);
    LeadsOn(cfg, PLAIN, w, first, w1, Read(cfg, env, w1, ListSetupSecrets) + [], w2);
    var w3 := Handled(cfg, env, w2, ReconcileRoles);
    ReadThen(cfg, env, PLAIN, w1, ListSetupSecrets, Read(cfg, env, w2, ReconcileRoles), w3);
    LeadsOn(cfg, PLAIN, w, first, w1, Read(cfg, env, w1, ListSetupSecrets) + Read(cfg, env, w2, ReconcileRoles), w3);
  }

  // -------- a pass --------

  function InstallCalls(cfg: Config, env: Env, st: St): seq<Call> {
    if Is(st, ClusterDefinitionCreated, False) then []
    else
      var w1 := Handled(cfg, env, st.hub, ListDay1);
      Read(cfg, env, st.hub, ListDay1) +
      if !Ok(env, ListDay1) || env.day1 == [] || Classify(env.day1[0], false) != AppHealthy || cfg.experimental then []
      else
        var p := Detect(env.day1[0].resources, env.day1[0].resources);
        if p == None then [] else ProviderCalls(cfg, env, p.value, w1)
  }

  lemma ProviderStepLeads(cfg: Config, env: Env, st: St, app: Application)
    requires ServerOk(st.hub)
    ensures var p := Detect(app.resources, app.resources);
      Leads(cfg, PLAIN, st.hub, if p == None then [] else ProviderCalls(cfg, env, p.value, st.hub),
            ReconcileProvider(cfg, env, st, app).st.hub)
  {
    hide Leads, ServerOk, ProviderCalls, GetClusterStatus, Conditions.Write, Detect, OnlyChanges;
    NoCalls(cfg, PLAIN, st.hub);
    var p := Detect(app.resources, app.resources);
    if p.Some? {
      ProviderLeads(cfg, env, p.value, st.hub);
    }
  }

  lemma InstallLeads(cfg: Config, env: Env, st: St)
    requires ServerOk(st.hub)
    ensures Leads(cfg, PLAIN, st.hub, InstallCalls(cfg, env, st), ReconcileClusterStatus(cfg, env, st).st.hub)
  {
    hide Leads, ServerOk, Handled, Read, ProviderCalls, ReconcileProvider, Conditions.Write, Detect, Classify,
      OnlyChanges;
    NoCalls(cfg, PLAIN, st.hub);
    var w1 := Handled(cfg, env, st.hub, ListDay1);
    ReadOnly(cfg, env, PLAIN, st.hub, ListDay1);
    if env.day1 != [] {
      var st2 := SetPhase(st.(hub := w1), ClusterInstallingPhase);
      var p := Detect(env.day1[0].resources, env.day1[0].resources);
      var calls := if p == None then [] else ProviderCalls(cfg, env, p.value, w1);
      ProviderStepLeads(cfg, env, st2, env.day1[0]);
      ReadThen(cfg, env, PLAIN, st.hub, ListDay1, calls, ReconcileProvider(cfg, env, st2, env.day1[0]).st.hub);
    }
  }

  function SecretRefCalls(cfg: Config, env: Env, w: Server): seq<Call> {
    Read(cfg, env, w, GetSecretRef) +
    if !Ok(env, GetSecretRef) || env.secretRefData == None then []
    else SecretsCalls(cfg, env, Handled(cfg, env, w, GetSecretRef), env.secretRefData.value.0,
      env.secretRefData.value.1)
  }

  lemma SecretRefLeads(cfg: Config, env: Env, st: St)
    requires ServerOk(st.hub)
    ensures Leads(cfg, PLAIN, st.hub, SecretRefCalls(cfg, env, st.hub), ReconcileSecretRef(cfg, env, st).st.hub)
  {
    hide Leads, ServerOk, Handled, Read, SecretsCalls, CreateClusterSecrets, Conditions.Write, OnlyChanges;
    var w1 := Handled(cfg, env, st.hub, GetSecretRef);
    ReadOnly(cfg, env, PLAIN, st.hub, GetSecretRef);
    if env.secretRefData.Some? {
      var d := env.secretRefData.value;
      SecretsLead(cfg, env, w1, d.0, d.1);
      ReadThen(cfg, env, PLAIN, st.hub, GetSecretRef, SecretsCalls(cfg, env, w1, d.0, d.1),
        CreateClusterSecrets(cfg, env, w1, d.0, d.1).0);
    }
  }

  // The calls of step k of a pass.
  function StageCalls(cfg: Config, env: Env, st: St, k: nat): seq<Call>
    requires k < STAGE_COUNT
  {
    match k
    case 0 =>
      if cfg.secretRef.Some? then SecretRefCalls(cfg, env, st.hub)
      else if !Is(st, ClusterDefinitionCreated, False) then [] else CreateDay1Calls(cfg, env, st.hub)
    case 1 => if cfg.secretRef.Some? then [] else InstallCalls(cfg, env, st)
    case 2 => RegisterCalls(cfg, env, st)
    case 3 =>
      if Gate(st, ManagedClusterCreated, Some(ManagedClusterImported))
        && cfg.Registers() then ImportCalls(cfg, env, st.hub) else []
    case 4 =>
      if Gate(st, ManagedClusterImported, None) && cfg.enableKlusterlet
        && !cfg.skipRegistration then KlusterletCalls(cfg, env, st.hub)
      else []
    case 5 => if Gate(st, ManagedClusterImported, None) && cfg.Registers() then Read(cfg, env, st.hub, ListForConsole)
      else []
    case 6 => if Gate(st, ManagedClusterImported, Some(ArgoClusterAdded)) then AddCalls(cfg, env, st.hub) else []
    case 7 =>
      if Gate(st, ArgoClusterAdded, Some(ClusterSetupCreated))
        && cfg.setups != [] then CreateDay2Calls(cfg, env, st.hub) else []
    case 8 =>
      if Gate(st, ClusterSetupCreated, Some(ClusterSetupSucceeded))
        && cfg.setups != [] then Read(cfg, env, st.hub, ListSetupApps)
      else []
    case _ => if Is(st, ClusterSetupSucceeded, False) then [] else PublishCalls(cfg, env, st)
  }

  // What the calls of step k may do.
  function PowersAt(st: St, k: nat): Powers {
    Passing(k == 2 && Gate(st, ClusterInstallSucceeded, Some(ManagedClusterCreated)),
            k == 6 && Gate(st, ManagedClusterImported, Some(ArgoClusterAdded)))
  }

  // Where step k leaves the server, reached by the calls of the step.
  ghost predicate StageGoes(cfg: Config, env: Env, st: St, k: nat)
    requires k < STAGE_COUNT
  {
    Leads(cfg, PowersAt(st, k), st.hub, StageCalls(cfg, env, st, k), Stage(cfg, env, st, k).st.hub)
  }

  lemma FirstStagesGo(cfg: Config, env: Env, st: St)
    requires ServerOk(st.hub)
    ensures StageGoes(cfg, env, st, 0) && StageGoes(cfg, env, st, 1)
  {
    hide Leads, ServerOk, SecretRefCalls, CreateDay1Calls, InstallCalls, ReconcileSecretRef, ReconcileClusterStatus,
      CreateDay1, Conditions.Write, OnlyChanges;
    NoCalls(cfg, PLAIN, st.hub);
    SecretRefLeads(cfg, env, st);
    InstallLeads(cfg, env, st);
    if cfg.secretRef.None? {
      CreateDay1Leads(cfg, env, st.hub);
    }
  }

  lemma NotRegistering(cfg: Config, env: Env, st: St)
    requires !Gate(st, ClusterInstallSucceeded, Some(ManagedClusterCreated))
    ensures RegisterCalls(cfg, env, st) == [] && ReconcileCreateManagedCluster(cfg, env, st) == R(st, None)
  {}

  lemma RegistrationGoes(cfg: Config, env: Env, st: St)
    requires ServerOk(st.hub)
    ensures StageGoes(cfg, env, st, 2) && StageGoes(cfg, env, st, 3) && StageGoes(cfg, env, st, 4)
  {
    hide Leads, ServerOk, RegisterCalls, ReconcileCreateManagedCluster, ImportCalls, EnsureImportSecret,
      KlusterletCalls, EnsureKlusterlet, Conditions.Write, OnlyChanges, Gate;
    NoCalls(cfg, PLAIN, st.hub);
    if !Gate(st, ClusterInstallSucceeded, Some(ManagedClusterCreated)) {
      NotRegistering(cfg, env, st);
    }
    RegisterLeads(cfg, env, st);
    ImportLeads(cfg, env, st.hub);
    KlusterletLeads(cfg, env, st.hub);
  }

  lemma ReadingStagesGo(cfg: Config, env: Env, st: St)
    requires ServerOk(st.hub)
    ensures StageGoes(cfg, env, st, 5) && StageGoes(cfg, env, st, 8)
  {
    hide Leads, ServerOk, Handled, Read, Conditions.Write, OnlyChanges, Gate, FirstCluster, AllHealthy, SomeAre,
      SetupStatuses;
    NoCalls(cfg, PLAIN, st.hub);
    ReadOnly(cfg, env, PLAIN, st.hub, ListForConsole);
    ReadOnly(cfg, env, PLAIN, st.hub, ListSetupApps);
  }

  lemma LaterStagesGo(cfg: Config, env: Env, st: St)
    requires ServerOk(st.hub)
    ensures StageGoes(cfg, env, st, 6) && StageGoes(cfg, env, st, 7) && StageGoes(cfg, env, st, 9)
  {
    hide Leads, ServerOk, AddCalls, AddClusterToArgo, CreateDay2Calls, CreateDay2, PublishCalls, PublishCredentials,
      Conditions.Write, OnlyChanges, Gate;
    NoCalls(cfg, PLAIN, st.hub);
    AddLeads(cfg, env, st);
    PublishLeads(cfg, env, st);
    if cfg.setups != [] {
      CreateDay2Leads(cfg, env, st.hub);
    }
  }

  lemma StageLeads(cfg: Config, env: Env, st: St, k: nat)
    requires ServerOk(st.hub) && k < STAGE_COUNT
    ensures Leads(cfg, PowersAt(st, k), st.hub, StageCalls(cfg, env, st, k), Stage(cfg, env, st, k).st.hub)
  {
    hide Leads, ServerOk, Stage, StageCalls;
    FirstStagesGo(cfg, env, st);
    RegistrationGoes(cfg, env, st);
    ReadingStagesGo(cfg, env, st);
    LaterStagesGo(cfg, env, st);
  }

  function StagesCalls(cfg: Config, env: Env, st: St, k: nat): seq<Call>
    requires k <= STAGE_COUNT
    decreases STAGE_COUNT - k
  {
    if k == STAGE_COUNT then []
    else
      var r := Stage(cfg, env, st, k);
      StageCalls(cfg, env, st, k) + if r.err.Some? then [] else StagesCalls(cfg, env, r.st, k + 1)
  }

  // More powers do no harm.
  lemma {:induction false} TraceWithin(cfg: Config, a: Powers, b: Powers, w: Server, calls: seq<Call>, n: Server)
    requires Within(a, b) && Trace(cfg, a, w, calls, n)
    ensures Trace(cfg, b, w, calls, n)
    decreases |calls|
  {
    if calls != [] {
      LegalWithin(cfg, a, b, calls[0].before, calls[0].change);
      TraceWithin(cfg, a, b, Apply(cfg, calls[0].before, calls[0].change), calls[1..], n);
    }
    hide Rely, Legal, Apply;
  }

  lemma LegalWithin(cfg: Config, a: Powers, b: Powers, w: Server, x: Change)
    requires Within(a, b) && Legal(cfg, a, w, x)
    ensures Legal(cfg, b, w, x)
  {
    hide FirstCluster, MySecrets, NameTaken, SecretNamed, HasOwn, Owns, Target, Matches, HasClusterPrefix;
  }

  lemma LeadsWithin(cfg: Config, a: Powers, b: Powers, w: Server, calls: seq<Call>, n: Server)
    requires Within(a, b) && Leads(cfg, a, w, calls, n)
    ensures Leads(cfg, b, w, calls, n)
  {
    hide ServerOk, Trace;
    TraceWithin(cfg, a, b, w, calls, n);
  }

  lemma {:induction false} StagesLead(cfg: Config, env: Env, st: St, k: nat)
    requires ServerOk(st.hub) && k <= STAGE_COUNT
    ensures Leads(cfg, PASS, st.hub, StagesCalls(cfg, env, st, k), Stages(cfg, env, st, k).st.hub)
    decreases STAGE_COUNT - k
  {
    hide Stage, StageCalls, Trace, ServerOk;
    NoCalls(cfg, PASS, st.hub);
    if k < STAGE_COUNT {
      var r := Stage(cfg, env, st, k);
      StageLeads(cfg, env, st, k);
      LeadsWithin(cfg, PowersAt(st, k), PASS, st.hub, StageCalls(cfg, env, st, k), r.st.hub);
      NoCalls(cfg, PASS, r.st.hub);
      if r.err == None {
        StagesLead(cfg, env, r.st, k + 1);
      }
      LeadsOn(cfg, PASS, st.hub, StageCalls(cfg, env, st, k), r.st.hub,
        if r.err.Some? then [] else StagesCalls(cfg, env, r.st, k + 1), Stages(cfg, env, st, k).st.hub);
    }
  }

  /** The calls of a whole pass, in their order. */
  function PassCalls(cfg: Config, env: Env, s: Stored, w: Server): seq<Call> {
    Read(cfg, env, w, GetTemplate) +
    if !Ok(env, GetTemplate) || !env.templateFound then [] else StagesCalls(cfg, env, PassStart(cfg, env, s, w), 0)
  }

  /** A pass is its calls: they lead from where it starts to where it ends. */
  lemma PassLeads(cfg: Config, env: Env, s: Stored, w: Server)
    requires ServerOk(w)
    ensures Leads(cfg, PASS, w, PassCalls(cfg, env, s, w), Pass(cfg, env, s, w).st.hub)
  {
    hide Leads, ServerOk, Handled, Read, Stages, StagesCalls;
    var st := PassStart(cfg, env, s, w);
    ReadOnly(cfg, env, PASS, w, GetTemplate);
    StagesLead(cfg, env, st, 0);
    ReadThen(cfg, env, PASS, w, GetTemplate, StagesCalls(cfg, env, st, 0), Stages(cfg, env, st, 0).st.hub);
  }
}
