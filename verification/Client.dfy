/** The objects a reconcile pass works on in place.

    They are the API client, its copies of ApplicationSets, and the instance whose status
    it fills in. */
module Client {
  import opened Generators
  import opened Conditions
  import opened Hub
  import opened Lifecycle
  import opened Passes

  /** A client-side copy of an ApplicationSet. */
  class AppSetObject {
    var name: string
    var version: nat
    var template: Template
    var generators: seq<Generator>

    constructor ()
      ensures name == "" && generators == []
    {
      name, version, template, generators := "", 0, Template([], "", []), [];
    }

    function Value(): AppSet
      reads this
    {
      AppSet(version, template, generators)
    }
  }

  /** The API client of one pass. What others do before a call is handled, and how the
      call turns out, is the environment's choice. */
  class ApiClient {
    const cfg: Config
    const env: Env
    var hub: Server

    constructor (cfg: Config, env: Env, hub: Server)
      ensures this.cfg == cfg && this.env == env && this.hub == hub
    {
      this.cfg, this.env, this.hub := cfg, env, hub;
    }

    // Any call, up to the moment the server handles it.
    method Call(s: Site) returns (o: Outcome)
      modifies this
      ensures hub == Handled(cfg, env, old(hub), s) && o == env.reply(s).outcome
    {
      hub := Handled(cfg, env, hub, s);
      o := env.reply(s).outcome;
    }

    // A missing set leaves the object that was passed in as it is.
    method GetAppSet(s: Site, name: string, obj: AppSetObject) returns (o: Outcome, found: bool)
      modifies this, obj
      ensures hub == Handled(cfg, env, old(hub), s) && o == env.reply(s).outcome
      ensures found <==> o.Served? && name in hub.appSets
      ensures found ==> obj.name == name && obj.Value() == hub.appSets[name]
      ensures !found ==> obj.name == old(obj.name) && obj.Value() == old(obj.Value())
    {
      o := Call(s);
      found := o.Served? && name in hub.appSets;
      if found {
        var a := hub.appSets[name];
        obj.name, obj.version, obj.template, obj.generators := name, a.version, a.template, a.generators;
      }
    }

    // A write under the version of the copy; the copy takes on the new version.
    method UpdateAppSet(s: Site, obj: AppSetObject) returns (ok: bool)
      modifies this, obj
      ensures (hub, ok) == WriteAppSet(cfg.Me(), old(hub), obj.name, old(obj.Value()), old(obj.generators),
          env.reply(s))
      ensures obj.name == old(obj.name) && obj.generators == old(obj.generators)
      ensures ok ==> obj.name in hub.appSets && obj.Value() == hub.appSets[obj.name]
    {
      var o := Call(s);
      if o.Refused? || obj.name !in hub.appSets || hub.appSets[obj.name].version != obj.version {
        return false;
      }
      var written := AppSet(hub.rv + 1, obj.template, obj.generators);
      hub := hub.(rv := hub.rv + 1, appSets := hub.appSets[obj.name := written]);
      ok := o.Served?;
      if ok {
        obj.version := written.version;
      }
    }

    // -------- credentials --------

    method GetKubeconfig(s: Site) returns (o: Outcome, url: Option<string>)
      modifies this
      ensures hub == Handled(cfg, env, old(hub), s) && o == env.reply(s).outcome
      ensures url == if o.Served? && cfg.Me() in hub.kubeconfigs then Some(hub.kubeconfigs[cfg.Me()]) else None
    {
      o := Call(s);
      url := if o.Served? && cfg.Me() in hub.kubeconfigs then Some(hub.kubeconfigs[cfg.Me()]) else None;
    }

    // An object that already exists is an error, as it is for the server.
    method CreateKubeconfigSecret(s: Site, url: string) returns (ok: bool)
      modifies this
      ensures var w := Handled(cfg, env, old(hub), s);
        (hub, ok) == if env.reply(s).outcome.Refused? || cfg.Me() in w.kubeconfigs then (w, false)
                     else (w.(kubeconfigs := w.kubeconfigs[cfg.Me() := url]), env.reply(s).outcome.Served?)
    {
      var o := Call(s);
      if o.Refused? || cfg.Me() in hub.kubeconfigs {
        return false;
      }
      hub := hub.(kubeconfigs := hub.kubeconfigs[cfg.Me() := url]);
      ok := o.Served?;
    }

    method CreatePasswordSecret(s: Site, password: string) returns (ok: bool)
      modifies this
      ensures var w := Handled(cfg, env, old(hub), s);
        (hub, ok) == if env.reply(s).outcome.Refused? || cfg.Me() in w.passwords then (w, false)
                     else (w.(passwords := w.passwords[cfg.Me() := password]), env.reply(s).outcome.Served?)
    {
      var o := Call(s);
      if o.Refused? || cfg.Me() in hub.passwords {
        return false;
      }
      hub := hub.(passwords := hub.passwords[cfg.Me() := password]);
      ok := o.Served?;
    }

    // -------- managed clusters --------

    // List with the instance's two labels as the selector.
    method ListManagedClusters(s: Site) returns (o: Outcome, items: seq<ManagedCluster>)
      modifies this
      ensures hub == Handled(cfg, env, old(hub), s) && o == env.reply(s).outcome
      ensures items == MyClusters(cfg.Me(), hub.clusters)
    {
      o := Call(s);
      items := MyClusters(cfg.Me(), hub.clusters);
    }

    // Create under a name the server makes up from the prefix.
    method CreateCluster(s: Site, prefix: string, labels: map<LabelKey, string>) returns (ok: bool)
      modifies this
      ensures var w := Handled(cfg, env, old(hub), s);
        var name := prefix + env.newSuffix;
        (hub, ok) == if env.reply(s).outcome.Refused? || NameTaken(w.clusters, name) then (w, false)
                     else (w.(clusters := w.clusters + [ManagedCluster(name, labels)]), env.reply(s).outcome.Served?)
    {
      var o := Call(s);
      var name := prefix + env.newSuffix;
      if o.Refused? || NameTaken(hub.clusters, name) {
        return false;
      }
      hub := hub.(clusters := hub.clusters + [ManagedCluster(name, labels)]);
      ok := o.Served?;
    }

    method DeleteCluster(s: Site, name: string) returns (ok: bool)
      modifies this
      ensures var w := Handled(cfg, env, old(hub), s);
        (hub, ok) == if env.reply(s).outcome.Refused? || !NameTaken(w.clusters, name) then (w, false)
                     else (w.(clusters := WithoutCluster(w.clusters, name)), env.reply(s).outcome.Served?)
    {
      var o := Call(s);
      if o.Refused? || !NameTaken(hub.clusters, name) {
        return false;
      }
      hub := hub.(clusters := WithoutCluster(hub.clusters, name));
      ok := o.Served?;
    }

    /** EnsureResourceExists for the import secret: get, and create if it is not there. */
    method EnsureImportSecretExists(get: Site, create: Site, name: string) returns (ok: bool)
      modifies this
      ensures var w := Handled(cfg, env, old(hub), get);
        var n := Handled(cfg, env, w, create);
        (hub, ok) ==
          if !env.reply(get).outcome.Served? then (w, false)
          else if name in w.importSecrets then (w, true)
          else if env.reply(create).outcome.Refused? || name in n.importSecrets then (n, false)
          else (n.(importSecrets := n.importSecrets + {name}), env.reply(create).outcome.Served?)
    {
      var o := Call(get);
      if o != Served {
        return false;
      }
      if name in hub.importSecrets {
        return true;
      }
      o := Call(create);
      if o.Refused? || name in hub.importSecrets {
        return false;
      }
      hub := hub.(importSecrets := hub.importSecrets + {name});
      ok := o.Served?;
    }

    /** EnsureResourceExists for the add-on configuration. */
    method EnsureKlusterletExists(get: Site, create: Site, name: string) returns (ok: bool)
      modifies this
      ensures var w := Handled(cfg, env, old(hub), get);
        var n := Handled(cfg, env, w, create);
        (hub, ok) ==
          if !env.reply(get).outcome.Served? then (w, false)
          else if name in w.klusterlets then (w, true)
          else if env.reply(create).outcome.Refused? || name in n.klusterlets then (n, false)
          else (n.(klusterlets := n.klusterlets + {name}), env.reply(create).outcome.Served?)
    {
      var o := Call(get);
      if o != Served {
        return false;
      }
      if name in hub.klusterlets {
        return true;
      }
      o := Call(create);
      if o.Refused? || name in hub.klusterlets {
        return false;
      }
      hub := hub.(klusterlets := hub.klusterlets + {name});
      ok := o.Served?;
    }

    // Deletes; a missing object is left to the caller.
    method DeleteKlusterletConfig(s: Site, name: string) returns (o: Outcome)
      modifies this
      ensures var w := Handled(cfg, env, old(hub), s);
        && o == env.reply(s).outcome
        && hub == if o.Refused? then w else w.(klusterlets := w.klusterlets - {name})
    {
      o := Call(s);
      if !o.Refused? {
        hub := hub.(klusterlets := hub.klusterlets - {name});
      }
    }

    method DeleteImportSecret(s: Site, name: string) returns (o: Outcome)
      modifies this
      ensures var w := Handled(cfg, env, old(hub), s);
        && o == env.reply(s).outcome
        && hub == if o.Refused? then w else w.(importSecrets := w.importSecrets - {name})
    {
      o := Call(s);
      if !o.Refused? {
        hub := hub.(importSecrets := hub.importSecrets - {name});
      }
    }

    // -------- argo secrets --------

    /** EnsureResourceExists for the argo cluster secret: one of the name is enough,
        whoever it is labelled for. */
    method EnsureArgoSecretExists(name: string) returns (ok: bool)
      modifies this
      ensures (hub, ok) == EnsureArgoSecret(cfg, env, old(hub), name)
    {
      var o := Call(GetArgoSecret);
      if o != Served {
        return false;
      }
      if SecretNamed(hub.argoSecrets, name) {
        return true;
      }
      o := Call(CreateArgoSecret);
      if o.Refused? || SecretNamed(hub.argoSecrets, name) {
        return false;
      }
      hub := hub.(argoSecrets := hub.argoSecrets + [ArgoSecret(name, Some(cfg.Me()))]);
      ok := o.Served?;
    }

    // List with the instance's two labels as the selector.
    method ListOwnArgoSecrets(s: Site) returns (o: Outcome, items: seq<ArgoSecret>)
      modifies this
      ensures hub == Handled(cfg, env, old(hub), s) && o == env.reply(s).outcome
      ensures items == MySecrets(cfg.Me(), hub.argoSecrets)
    {
      o := Call(s);
      items := MySecrets(cfg.Me(), hub.argoSecrets);
    }

    method DeleteSecret(s: Site, name: string) returns (ok: bool)
      modifies this
      ensures var w := Handled(cfg, env, old(hub), s);
        (hub, ok) == if env.reply(s).outcome.Refused? || !SecretNamed(w.argoSecrets, name) then (w, false)
                     else (w.(argoSecrets := WithoutSecret(w.argoSecrets, name)), env.reply(s).outcome.Served?)
    {
      var o := Call(s);
      if o.Refused? || !SecretNamed(hub.argoSecrets, name) {
        return false;
      }
      hub := hub.(argoSecrets := WithoutSecret(hub.argoSecrets, name));
      ok := o.Served?;
    }
  }

  lemma RecordedHasAll(cs: seq<Condition>, b: Board, now: int)
    requires Shows(cs, b)
    ensures cs != [] && WithDefaults(cs, now) == cs
  {
    assert ShowsAt(cs, b, ClusterDefinitionCreated);
    DefaultsMakeWellFormed(cs, now);
  }

  /** A cluster template instance as a pass holds it. `board` shows what the list of
      conditions holds. */
  class ClusterTemplateInstance {
    const conditions: ConditionList
    ghost var board: Board
    var phase: Phase
    var apiServerURL: string
    var credentialRefs: bool
    var managedCluster: string
    var consoleURL: string
    var setupSecrets: seq<string>
    var clusterSetup: seq<SetupStatus>
    var firstLogin: Option<int>

    ghost predicate Valid()
      reads this, conditions
    {
      Shows(conditions.items, board)
    }

    ghost function View(): Status
      reads this
    {
      Status(board, phase, apiServerURL, credentialRefs, managedCluster, consoleURL, setupSecrets, clusterSetup,
        firstLogin)
    }

    // The instance as it was read: no condition at all before the first status write.
    ghost predicate Loaded(s: Stored)
      reads this, conditions
    {
      match s
      case Fresh =>
        && conditions.items == [] && apiServerURL == "" && !credentialRefs && managedCluster == "" && consoleURL == ""
        && setupSecrets == [] && clusterSetup == [] && firstLogin == None
      case Saved(status) => Valid() && View() == status
    }

    constructor (items: seq<Condition>, phase: Phase, apiServerURL: string, credentialRefs: bool,
        managedCluster: string, consoleURL: string, setupSecrets: seq<string>, clusterSetup: seq<SetupStatus>,
        firstLogin: Option<int>, ghost board: Board)
      requires items == [] || Shows(items, board)
      ensures conditions.items == items && fresh(conditions)
      ensures View() == Status(board, phase, apiServerURL, credentialRefs, managedCluster, consoleURL, setupSecrets,
          clusterSetup, firstLogin)
    {
      conditions := new ConditionList(items);
      this.board, this.phase, this.apiServerURL, this.credentialRefs := board, phase, apiServerURL, credentialRefs;
      this.managedCluster, this.consoleURL, this.setupSecrets := managedCluster, consoleURL, setupSecrets;
      this.clusterSetup, this.firstLogin := clusterSetup, firstLogin;
    }

    /** How every pass begins: a new instance is pending, and missing conditions get
        their defaults. */
    method BeginPass(now: int, ghost s: Stored)
      requires Loaded(s)
      modifies this, conditions
      ensures Valid() && View() == Begin(s, now)
    {
      hide Shows, NewBoard, WithDefaults;
      if s.Saved? {
        RecordedHasAll(conditions.items, board, now);
      }
      DefaultsShow(conditions.items, board, now);
      if |conditions.items| == 0 {
        phase := PendingPhase;
        board := NewBoard(now);
      }
      conditions.SetDefaultConditions(now);
    }

    /** The condition setters, one for all types. */
    method SetCondition(t: ConditionType, s: ConditionStatus, r: Reason, now: int)
      requires Valid() && t != Ready
      modifies this`board, conditions
      ensures Valid() && board == Write(old(board), t, s, r, now)
    {
      SetShows(conditions.items, board, t, s, r, now);
      hide Shows, Set, Write;
      conditions.SetStatusCondition(Condition(t, s, r, now));
      board := Write(board, t, s, r, now);
    }

    // FindStatusCondition, on a list that is known to hold the type.
    method StatusOfCondition(t: ConditionType) returns (s: ConditionStatus)
      requires Valid() && t != Ready
      ensures s == Get(board, t).status
    {
      assert ShowsAt(conditions.items, board, t);
      var i := 0;
      var cs := conditions.items;
      while cs[i].ctype != t
        invariant 0 <= i < |cs|
        invariant Find(cs, t) == Find(cs[i..], t) && Find(cs[i..], t).Some?
        decreases |cs| - i
      {
        assert cs[i..][0] == cs[i] && cs[i..][1..] == cs[i + 1..];
        assert i + 1 < |cs|;
        i := i + 1;
      }
      assert cs[i..][0] == cs[i];
      s := cs[i].status;
    }

    /** PhaseCanExecute. */
    method PhaseCanExecute(prev: ConditionType, current: Option<ConditionType>) returns (can: bool)
      requires Valid() && prev != Ready && current != Some(Ready)
      ensures can == CanExecute(board, prev, current)
    {
      var p := StatusOfCondition(prev);
      if p == False {
        return false;
      }
      if current.None? {
        return true;
      }
      var c := StatusOfCondition(current.value);
      can := c != True;
    }
  }
}
