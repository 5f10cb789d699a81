/** The operator's root controller: it watches for the CRDs it can make use of and restarts
    the instance controller whenever one more turns up. */
module Restarts {
  import opened Conditions

  datatype Gvk = Gvk(group: string, kind: string, version: string)

  datatype Crd = Crd(group: string, kind: string, versions: seq<string>)

  const HOSTED_CLUSTER_GVK := Gvk("hypershift.openshift.io", "HostedCluster", "v1beta1")
  const CLUSTER_DEPLOYMENT_GVK := Gvk("hive.openshift.io", "ClusterDeployment", "v1")
  const MANAGED_CLUSTER_GVK := Gvk("cluster.open-cluster-management.io", "ManagedCluster", "v1")
  const KLUSTERLET_ADDON_GVK := Gvk("agent.open-cluster-management.io", "KlusterletAddonConfig", "v1")

  const CONSOLE_PLUGIN_GVK := Gvk("console.openshift.io", "ConsolePlugin", "v1alpha1")

  datatype Flags = Flags(hypershift: bool, hive: bool, managedCluster: bool, klusterlet: bool)

  // An instance controller and the flags it was started with.
  datatype Controller = Controller(flags: Flags, cancelled: bool)

  // `current`: the controller that the stored cancel function belongs to. `templates` and
  // `plugins` count the starts of the hypershift template and console plugin controllers.
  datatype State = State(
    flags: Flags, controllers: seq<Controller>, current: nat, consolePlugin: bool, templates: nat, plugins: nat)

  function Bit(b: bool): nat { if b then 1 else 0 }

  predicate Supports(crd: Crd, gvk: Gvk) {
    crd.group == gvk.group && crd.kind == gvk.kind && gvk.version in crd.versions
  }

  function Started(flags: Flags, consolePlugin: bool): State {
    State(flags, [Controller(flags, false)], 0, consolePlugin, Bit(flags.hypershift), Bit(consolePlugin))
  }

  function Cancelled(cs: seq<Controller>, i: nat): seq<Controller> {
    if i < |cs| then cs[i := cs[i].(cancelled := true)] else cs
  }

  function Restarted(s: State, flags: Flags): State {
    s.(flags := flags, controllers := Cancelled(s.controllers, s.current) + [Controller(flags, false)],
       current := |s.controllers|)
  }

  // One of the first four blocks of Reconcile.
  function Block(s: State, known: bool, supported: bool, flags: Flags): State {
    if !known && supported then Restarted(s, flags) else s
  }

  // The four blocks that may restart the instance controller.
  function InstanceBlocks(s: State, crd: Crd): State {
    var s1 := Block(s, s.flags.hypershift, Supports(crd, HOSTED_CLUSTER_GVK), s.flags.(hypershift := true));
    var s2 := Block(s1, s1.flags.hive, Supports(crd, CLUSTER_DEPLOYMENT_GVK), s1.flags.(hive := true));
    var s3 := Block(s2, s2.flags.managedCluster, Supports(crd, MANAGED_CLUSTER_GVK), s2.flags.(managedCluster := true));
    Block(s3, s3.flags.klusterlet, Supports(crd, KLUSTERLET_ADDON_GVK), s3.flags.(klusterlet := true))
  }

  function PluginBlock(s: State, supported: bool): State {
    if !s.consolePlugin && supported then s.(consolePlugin := true, plugins := s.plugins + 1) else s
  }

  // Reconcile for a CRD that was found.
  function Seen(s: State, crd: Crd): State {
    PluginBlock(InstanceBlocks(s, crd), Supports(crd, CONSOLE_PLUGIN_GVK))
  }

  // None: the CRD is gone again, or could not be read.
  function Run(s: State, events: seq<Option<Crd>>): State
    decreases |events|
  {
    if events == [] then s
    else Run(if events[0].Some? then Seen(s, events[0].value) else s, events[1..])
  }

  // -------- properties --------

  function Known(f: Flags): nat {
    Bit(f.hypershift) + Bit(f.hive) + Bit(f.managedCluster) + Bit(f.klusterlet)
  }

  predicate FlagsGrow(f: Flags, g: Flags) {
    (f.hypershift ==> g.hypershift) && (f.hive ==> g.hive)
    && (f.managedCluster ==> g.managedCluster) && (f.klusterlet ==> g.klusterlet)
  }

  // Exactly one controller runs, the one that can be cancelled, with the current flags.
  ghost predicate OneRuns(s: State) {
    && s.current < |s.controllers|
    && (forall i | 0 <= i < |s.controllers| :: !s.controllers[i].cancelled <==> i == s.current)
    && s.controllers[s.current].flags == s.flags
  }

  // Every restart is paid for by a flag.
  ghost predicate Follows(a: State, b: State) {
    FlagsGrow(a.flags, b.flags) && |b.controllers| - |a.controllers| == Known(b.flags) - Known(a.flags)
  }

  // The same of the plugin controller; the template controller is left alone.
  predicate OthersFollow(a: State, b: State) {
    && (a.consolePlugin ==> b.consolePlugin) && b.plugins - a.plugins == Bit(b.consolePlugin) - Bit(a.consolePlugin)
    && b.templates == a.templates
  }

  // A step that keeps one controller running and pays for its restart.
  ghost predicate Fine(a: State, b: State) {
    OneRuns(b) && Follows(a, b)
  }

  lemma HypershiftBlock(s: State, supported: bool)
    requires OneRuns(s)
    ensures var n := Block(s, s.flags.hypershift, supported, s.flags.(hypershift := true));
      Fine(s, n) && (supported ==> n.flags.hypershift)
  {}

  lemma HiveBlock(s: State, supported: bool)
    requires OneRuns(s)
    ensures var n := Block(s, s.flags.hive, supported, s.flags.(hive := true));
      Fine(s, n) && (supported ==> n.flags.hive)
  {}

  lemma ManagedClusterBlock(s: State, supported: bool)
    requires OneRuns(s)
    ensures var n := Block(s, s.flags.managedCluster, supported, s.flags.(managedCluster := true));
      Fine(s, n) && (supported ==> n.flags.managedCluster)
  {}

  lemma KlusterletBlock(s: State, supported: bool)
    requires OneRuns(s)
    ensures var n := Block(s, s.flags.klusterlet, supported, s.flags.(klusterlet := true));
      Fine(s, n) && (supported ==> n.flags.klusterlet)
  {}

  lemma FineOn(a: State, b: State, c: State)
    requires Fine(a, b) && Fine(b, c)
    ensures Fine(a, c)
  {
    hide OneRuns, Known;
  }

  // All the flags a CRD supports are on after it was seen.
  predicate TakenUp(f: Flags, crd: Crd) {
    && (Supports(crd, HOSTED_CLUSTER_GVK) ==> f.hypershift)
    && (Supports(crd, CLUSTER_DEPLOYMENT_GVK) ==> f.hive)
    && (Supports(crd, MANAGED_CLUSTER_GVK) ==> f.managedCluster)
    && (Supports(crd, KLUSTERLET_ADDON_GVK) ==> f.klusterlet)
  }

  // A CRD of this group and kind that has the version.
  predicate Offers(crd: Crd, group: string, kind: string, version: string) {
    crd.group == group && crd.kind == kind && exists i :: 0 <= i < |crd.versions| && crd.versions[i] == version
  }

  /** What is learnt from a CRD: each flag comes on exactly with the CRD it is about, in the
      version that the operator works with, and none goes off. */
  lemma LearntExactly(s: State, crd: Crd)
    ensures var n := Seen(s, crd);
      && (n.flags.hypershift <==>
            s.flags.hypershift || Offers(crd, "hypershift.openshift.io", "HostedCluster", "v1beta1"))
      && (n.flags.hive <==> s.flags.hive || Offers(crd, "hive.openshift.io", "ClusterDeployment", "v1"))
      && (n.flags.managedCluster <==>
            s.flags.managedCluster || Offers(crd, "cluster.open-cluster-management.io", "ManagedCluster", "v1"))
      && (n.flags.klusterlet <==>
            s.flags.klusterlet || Offers(crd, "agent.open-cluster-management.io", "KlusterletAddonConfig", "v1"))
      && (n.consolePlugin <==> s.consolePlugin || Offers(crd, "console.openshift.io", "ConsolePlugin", "v1alpha1"))
  {
    hide Supports, Offers, Seen;
    FlagsAfter(s, crd);
    SupportsMeans(crd, HOSTED_CLUSTER_GVK);
    SupportsMeans(crd, CLUSTER_DEPLOYMENT_GVK);
    SupportsMeans(crd, MANAGED_CLUSTER_GVK);
    SupportsMeans(crd, KLUSTERLET_ADDON_GVK);
    SupportsMeans(crd, CONSOLE_PLUGIN_GVK);
  }

  lemma SupportsMeans(crd: Crd, gvk: Gvk)
    ensures Supports(crd, gvk) <==> Offers(crd, gvk.group, gvk.kind, gvk.version)
  {}

  lemma BlockFlags(s: State, known: bool, supported: bool, flags: Flags)
    ensures Block(s, known, supported, flags).flags == if !known && supported then flags else s.flags
    ensures Block(s, known, supported, flags).consolePlugin == s.consolePlugin
  {}

  lemma FlagsAfter(s: State, crd: Crd)
    ensures var n := Seen(s, crd);
      && (n.flags.hypershift <==> s.flags.hypershift || Supports(crd, HOSTED_CLUSTER_GVK))
      && (n.flags.hive <==> s.flags.hive || Supports(crd, CLUSTER_DEPLOYMENT_GVK))
      && (n.flags.managedCluster <==> s.flags.managedCluster || Supports(crd, MANAGED_CLUSTER_GVK))
      && (n.flags.klusterlet <==> s.flags.klusterlet || Supports(crd, KLUSTERLET_ADDON_GVK))
      && (n.consolePlugin <==> s.consolePlugin || Supports(crd, CONSOLE_PLUGIN_GVK))
  {
    hide Supports, Block;
    var s1 := Block(s, s.flags.hypershift, Supports(crd, HOSTED_CLUSTER_GVK), s.flags.(hypershift := true));
    var s2 := Block(s1, s1.flags.hive, Supports(crd, CLUSTER_DEPLOYMENT_GVK), s1.flags.(hive := true));
    var s3 := Block(s2, s2.flags.managedCluster, Supports(crd, MANAGED_CLUSTER_GVK), s2.flags.(managedCluster := true));
    BlockFlags(s, s.flags.hypershift, Supports(crd, HOSTED_CLUSTER_GVK), s.flags.(hypershift := true));
    BlockFlags(s1, s1.flags.hive, Supports(crd, CLUSTER_DEPLOYMENT_GVK), s1.flags.(hive := true));
    BlockFlags(s2, s2.flags.managedCluster, Supports(crd, MANAGED_CLUSTER_GVK), s2.flags.(managedCluster := true));
    BlockFlags(s3, s3.flags.klusterlet, Supports(crd, KLUSTERLET_ADDON_GVK), s3.flags.(klusterlet := true));
  }

  lemma BlocksKeep(s: State, crd: Crd)
    requires OneRuns(s)
    ensures Fine(s, InstanceBlocks(s, crd)) && TakenUp(InstanceBlocks(s, crd).flags, crd)
  {
    hide Supports, Block, OneRuns, Known;
    var s1 := Block(s, s.flags.hypershift, Supports(crd, HOSTED_CLUSTER_GVK), s.flags.(hypershift := true));
    var s2 := Block(s1, s1.flags.hive, Supports(crd, CLUSTER_DEPLOYMENT_GVK), s1.flags.(hive := true));
    var s3 := Block(s2, s2.flags.managedCluster, Supports(crd, MANAGED_CLUSTER_GVK), s2.flags.(managedCluster := true));
    var s4 := Block(s3, s3.flags.klusterlet, Supports(crd, KLUSTERLET_ADDON_GVK), s3.flags.(klusterlet := true));
    assert InstanceBlocks(s, crd) == s4;
    HypershiftBlock(s, Supports(crd, HOSTED_CLUSTER_GVK));
    HiveBlock(s1, Supports(crd, CLUSTER_DEPLOYMENT_GVK));
    ManagedClusterBlock(s2, Supports(crd, MANAGED_CLUSTER_GVK));
    KlusterletBlock(s3, Supports(crd, KLUSTERLET_ADDON_GVK));
    FineOn(s, s1, s2);
    FineOn(s, s2, s3);
    FineOn(s, s3, s4);
  }

  lemma BlocksLeaveOthers(s: State, crd: Crd)
    ensures InstanceBlocks(s, crd) ==
      s.(flags := InstanceBlocks(s, crd).flags, controllers := InstanceBlocks(s, crd).controllers,
         current := InstanceBlocks(s, crd).current)
  {
    hide Supports, Cancelled;
  }

  lemma SeenKeeps(s: State, crd: Crd)
    requires OneRuns(s)
    ensures Fine(s, Seen(s, crd)) && TakenUp(Seen(s, crd).flags, crd) && OthersFollow(s, Seen(s, crd))
    ensures Supports(crd, CONSOLE_PLUGIN_GVK) ==> Seen(s, crd).consolePlugin
  {
    hide Supports, InstanceBlocks, Known, FlagsGrow;
    BlocksKeep(s, crd);
    BlocksLeaveOthers(s, crd);
  }

  lemma {:induction false} RunKeeps(s: State, events: seq<Option<Crd>>)
    requires OneRuns(s)
    ensures OneRuns(Run(s, events)) && Follows(s, Run(s, events)) && OthersFollow(s, Run(s, events))
    decreases |events|
  {
    hide OneRuns, Seen, FlagsGrow;
    if events == [] {
      GrowReflexive(s.flags);
    } else {
      var n := if events[0].Some? then Seen(s, events[0].value) else s;
      GrowReflexive(s.flags);
      if events[0].Some? {
        SeenKeeps(s, events[0].value);
      }
      RunKeeps(n, events[1..]);
      GrowTransitive(s.flags, n.flags, Run(s, events).flags);
    }
  }

  lemma GrowReflexive(f: Flags)
    ensures FlagsGrow(f, f)
  {}

  lemma GrowTransitive(f: Flags, g: Flags, h: Flags)
    requires FlagsGrow(f, g) && FlagsGrow(g, h)
    ensures FlagsGrow(f, h)
  {}

  /** A CRD that was seen is taken up for good. */
  lemma TakenUpForGood(flags: Flags, plugin: bool, before: seq<Option<Crd>>, crd: Crd, after: seq<Option<Crd>>)
    ensures var s := Run(Seen(Run(Started(flags, plugin), before), crd), after);
      TakenUp(s.flags, crd) && (Supports(crd, CONSOLE_PLUGIN_GVK) ==> s.consolePlugin)
  {
    hide Run, Seen, OneRuns, Supports, Known;
    var s := Run(Started(flags, plugin), before);
    StartedRuns(flags, plugin);
    RunKeeps(Started(flags, plugin), before);
    SeenKeeps(s, crd);
    RunKeeps(Seen(s, crd), after);
  }

  lemma StartedRuns(flags: Flags, plugin: bool)
    ensures OneRuns(Started(flags, plugin))
  {}

  /** From the set-up on, after every event exactly one instance controller is not
      cancelled and it runs with the current four flags; flags never go back; and the
      restarts so far are exactly the flags gained, hence never more than four. */
  lemma ExactlyOneControllerRuns(flags: Flags, plugin: bool, events: seq<Option<Crd>>)
    ensures var s := Run(Started(flags, plugin), events);
      && OneRuns(s) && FlagsGrow(flags, s.flags)
      && |s.controllers| - 1 == Known(s.flags) - Known(flags) <= 4 - Known(flags)
  {
    StartedRuns(flags, plugin);
    RunKeeps(Started(flags, plugin), events);
    hide Run;
  }

  /** The console plugin controller is started once, and only once its CRD was seen; the
      hypershift template controller exactly when the hypershift CRD was there at the
      set-up. One that turns up later restarts the instance controller but never starts
      the template controller. */
  lemma OtherControllersStart(flags: Flags, plugin: bool, events: seq<Option<Crd>>)
    ensures var s := Run(Started(flags, plugin), events);
      && s.plugins == Bit(s.consolePlugin)
      && s.templates == Bit(flags.hypershift)
  {
    StartedRuns(flags, plugin);
    RunKeeps(Started(flags, plugin), events);
    hide Run;
  }

  // -------- the reconciler --------

  class CLaaSReconciler {
    var enableHypershift: bool
    var enableHive: bool
    var enableManagedCluster: bool
    var enableKlusterlet: bool
    var enableConsolePlugin: bool
    var controllers: seq<Controller>
    var ctiControllerCancel: nat
    var templates: nat                // starts of the hypershift template controller
    var plugins: nat                  // starts of the console plugin controller

    function View(): State
      reads this
    {
      State(Flags(enableHypershift, enableHive, enableManagedCluster, enableKlusterlet), controllers,
        ctiControllerCancel, enableConsolePlugin, templates, plugins)
    }

    /** SetupWithManager, given which CRDs are available. */
    constructor SetupWithManager(hypershift: bool, hive: bool, consolePlugin: bool, managedCluster: bool,
        klusterlet: bool)
      ensures View() == Started(Flags(hypershift, hive, managedCluster, klusterlet), consolePlugin)
    {
      enableHypershift, enableHive := hypershift, hive;
      enableManagedCluster, enableKlusterlet := managedCluster, klusterlet;
      controllers := [Controller(Flags(hypershift, hive, managedCluster, klusterlet), false)];
      ctiControllerCancel := 0;
      enableConsolePlugin := consolePlugin;
      templates := if hypershift then 1 else 0;
      plugins := if consolePlugin then 1 else 0;
    }

    static method IsCRDSupported(crd: Crd, gvk: Gvk) returns (supported: bool)
      ensures supported <==> Supports(crd, gvk)
      ensures supported <==>
        && crd.group == gvk.group && crd.kind == gvk.kind
        && exists i :: 0 <= i < |crd.versions| && crd.versions[i] == gvk.version
    {
      if crd.group == gvk.group && crd.kind == gvk.kind {
        for i := 0 to |crd.versions|
          invariant gvk.version !in crd.versions[..i]
        {
          if crd.versions[i] == gvk.version {
            return true;
          }
        }
        assert crd.versions[..|crd.versions|] == crd.versions;
      }
      supported := false;
    }

    method Cancel()
      modifies this`controllers
      ensures controllers == Cancelled(old(controllers), ctiControllerCancel)
    {
      if ctiControllerCancel < |controllers| {
        var c := controllers[ctiControllerCancel];
        controllers := controllers[ctiControllerCancel := c.(cancelled := true)];
      }
    }

    method StartCTIController(flags: Flags) returns (cancel: nat)
      modifies this`controllers
      ensures controllers == old(controllers) + [Controller(flags, false)] && cancel == |old(controllers)|
    {
      cancel := |controllers|;
      controllers := controllers + [Controller(flags, false)];
    }

    method Restart()
      modifies this`controllers, this`ctiControllerCancel
      ensures View() == Restarted(old(View()), old(View()).flags)
    {
      Cancel();
      ctiControllerCancel := StartCTIController(
        Flags(enableHypershift, enableHive, enableManagedCluster, enableKlusterlet));
    }

    method RestartIfNeeded(crd: Crd)
      modifies this
      ensures View() == InstanceBlocks(old(View()), crd)
    {
      var supported := IsCRDSupported(crd, HOSTED_CLUSTER_GVK);
      if !enableHypershift && supported {
        enableHypershift := true;
        Restart();
      }
      supported := IsCRDSupported(crd, CLUSTER_DEPLOYMENT_GVK);
      if !enableHive && supported {
        enableHive := true;
        Restart();
      }
      supported := IsCRDSupported(crd, MANAGED_CLUSTER_GVK);
      if !enableManagedCluster && supported {
        enableManagedCluster := true;
        Restart();
      }
      supported := IsCRDSupported(crd, KLUSTERLET_ADDON_GVK);
      if !enableKlusterlet && supported {
        enableKlusterlet := true;
        Restart();
      }
    }

    /** Reconcile for one CRD event. */
    method Reconcile(found: Option<Crd>)
      modifies this
      ensures View() == if found.Some? then Seen(old(View()), found.value) else old(View())
    {
      if found.None? {
        return;
      }
      hide InstanceBlocks;
      RestartIfNeeded(found.value);
      var supported := IsCRDSupported(found.value, CONSOLE_PLUGIN_GVK);
      if !enableConsolePlugin && supported {
        enableConsolePlugin := true;
        plugins := plugins + 1;
      }
    }
  }
}
