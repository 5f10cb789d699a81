/** Registration when the look-up before the creation is answered from a cache that lags behind. */
module Caches {
  import opened Generators
  import opened Conditions
  import opened Hub
  import opened Lifecycle
  import opened Convergence
  import opened Registration

  // `seen`: which of the server's lists so far the cache still shows.
  datatype Event = Register(seen: nat, suffix: string) | Remove(name: string) | Foreign(mc: ManagedCluster)

  // All the lists of managed clusters that there have been, the present one last.
  type History = h: seq<seq<ManagedCluster>> | h != [] witness [[]]

  function Now(h: History): seq<ManagedCluster> { h[|h| - 1] }

  function Index(h: History, i: nat): (j: nat)
    ensures j < |h|
  {
    if i < |h| then i else |h| - 1
  }

  function Shown(h: History, e: Event): (i: nat)
    requires e.Register?
    ensures i < |h|
  {
    Index(h, e.seen)
  }

  predicate Creates(cfg: Config, h: History, e: Event) {
    e.Register? && FirstCluster(cfg.Me(), h[Shown(h, e)]) == None && !NameTaken(Now(h), "cluster-" + e.suffix)
  }

  function Next(cfg: Config, h: History, e: Event): seq<ManagedCluster> {
    match e
    case Register(_, suffix) =>
      if Creates(cfg, h, e) then Now(h) + [ManagedCluster("cluster-" + suffix, ClusterLabels(cfg))] else Now(h)
    case Remove(name) => WithoutCluster(Now(h), name)
    case Foreign(mc) => if Matches(cfg.Me(), mc.labels) then Now(h) else Now(h) + [mc]
  }

  function Run(cfg: Config, h: History, events: seq<Event>): History
    decreases |events|
  {
    if events == [] then h else Run(cfg, h + [Next(cfg, h, events[0])], events[1..])
  }

  // The registration goes on to the look-up: there is a cluster, as far as the list shows,
  // or one was made.
  predicate Reports(cfg: Config, h: History, e: Event) {
    e.Register? && (FirstCluster(cfg.Me(), h[Shown(h, e)]).Some? || Creates(cfg, h, e))
  }

  // The look-up that follows finds nothing in the list it is shown, and what it returns is
  // used without a nil check.
  predicate LookUpCrashes(cfg: Config, h: History, shown: nat) {
    FirstCluster(cfg.Me(), h[Index(h, shown)]) == None
  }

  // With lists that are up to date this is what the registration of a pass does.
  lemma UpToDate(cfg: Config, env: Env, st: St)
    requires Calm(env) && cfg.Registers() && Gate(st, ClusterInstallSucceeded, Some(ManagedClusterCreated))
    ensures var h, e, r := [st.hub.clusters], Register(0, env.newSuffix), ReconcileCreateManagedCluster(cfg, env, st);
      && r.st.hub.clusters == Next(cfg, h, e)
      && (r.err == Some(Crash) <==> Reports(cfg, h, e) && LookUpCrashes(cfg, h + [Next(cfg, h, e)], 1))
  {
    hide FirstCluster, NameTaken, ClusterLabels, Gate, OnlyChanges;
  }

  // A cluster is made although the instance has one: the list did not show it.
  predicate Misses(cfg: Config, h: History, e: Event) {
    Creates(cfg, h, e) && LabelsKept(cfg) && MyClusters(cfg.Me(), Now(h)) != []
  }

  predicate NeverMisses(cfg: Config, h: History, events: seq<Event>)
    decreases |events|
  {
    events == [] || (!Misses(cfg, h, events[0]) && NeverMisses(cfg, h + [Next(cfg, h, events[0])], events[1..]))
  }

  ghost predicate AtMostOne(cfg: Config, h: History) {
    forall i | 0 <= i < |h| :: |MyClusters(cfg.Me(), h[i])| <= 1
  }

  lemma {:induction false} RemovalThins(me: Key, cs: seq<ManagedCluster>, name: string)
    ensures Thins(MyClusters(me, cs), MyClusters(me, WithoutCluster(cs, name)))
  {
    if cs != [] {
      RemovalThins(me, cs[1..], name);
      var rest, head := WithoutCluster(cs[1..], name), if cs[0].name == name then [] else [cs[0]];
      MyClustersAppend(me, head, rest);
    }
  }

  lemma NextIs(cfg: Config, h: History, e: Event)
    ensures var mine, n := MyClusters(cfg.Me(), Now(h)), MyClusters(cfg.Me(), Next(cfg, h, e));
      if Creates(cfg, h, e) && LabelsKept(cfg)
      then n == mine + [ManagedCluster("cluster-" + e.suffix, ClusterLabels(cfg))]
      else Thins(mine, n)
  {
    hide FirstCluster, NameTaken, ClusterLabels, LabelsKept;
    var me, cs := cfg.Me(), Now(h);
    match e
    case Register(_, suffix) =>
      var mc := ManagedCluster("cluster-" + suffix, ClusterLabels(cfg));
      LabelledExactlyWhenKept(cfg);
      MyClustersAppend(me, cs, [mc]);
      assert MyClusters(me, [mc]) == if Matches(me, mc.labels) then [mc] else [];
    case Remove(name) => RemovalThins(me, cs, name);
    case Foreign(mc) =>
      MyClustersAppend(me, cs, [mc]);
      assert MyClusters(me, [mc]) == if Matches(me, mc.labels) then [mc] else [];
  }

  lemma {:induction false} RunExtends(cfg: Config, h: History, events: seq<Event>)
    ensures h <= Run(cfg, h, events)
    decreases |events|
  {
    if events != [] {
      RunExtends(cfg, h + [Next(cfg, h, events[0])], events[1..]);
    }
  }

  /** Over any run, whatever the lists show: the instance never has two managed clusters
      exactly when none of its creations follows a list that misses one. */
  lemma {:induction false} AtMostOneExactlyWhen(cfg: Config, h: History, events: seq<Event>)
    requires AtMostOne(cfg, h)
    ensures AtMostOne(cfg, Run(cfg, h, events)) <==> NeverMisses(cfg, h, events)
    decreases |events|
  {
    hide Next, Misses, MyClusters, LabelsKept;
    if events != [] {
      var e, n := events[0], h + [Next(cfg, h, events[0])];
      SecondExactlyWhen(cfg, h, e);
      if Misses(cfg, h, e) {
        RunExtends(cfg, n, events[1..]);
        assert Run(cfg, n, events[1..])[|h|] == n[|h|];
      } else {
        assert forall i | 0 <= i < |n| :: n[i] == if i < |h| then h[i] else Next(cfg, h, e);
        AtMostOneExactlyWhen(cfg, n, events[1..]);
      }
    }
  }

  lemma SecondExactlyWhen(cfg: Config, h: History, e: Event)
    requires AtMostOne(cfg, h)
    ensures |MyClusters(cfg.Me(), Next(cfg, h, e))| <= 1 <==> !Misses(cfg, h, e)
  {
    hide Next, Creates, MyClusters, LabelsKept;
    NextIs(cfg, h, e);
    assert |MyClusters(cfg.Me(), h[|h| - 1])| <= 1;
  }

  // -------- a cache that shows what one has written oneself --------

  // No list is older than the one that the instance's last creation made, `since`.
  predicate ReadsOwnWrites(cfg: Config, h: History, events: seq<Event>, since: nat)
    decreases |events|
  {
    events == [] ||
    (var e := events[0];
     && (e.Register? ==> since <= Shown(h, e))
     && ReadsOwnWrites(cfg, h + [Next(cfg, h, e)], events[1..], if Creates(cfg, h, e) then |h| else since))
  }

  // What the instance has now was there all the time since.
  ghost predicate Settled(cfg: Config, h: History, since: nat) {
    && since < |h|
    && (forall i | 0 <= i < |h| :: AllPrefixed(MyClusters(cfg.Me(), h[i])))
    && (forall i, x | since <= i < |h| && x in MyClusters(cfg.Me(), Now(h)) :: x in MyClusters(cfg.Me(), h[i]))
  }

  /** It is enough that a list shows the instance's own last creation, however old it is
      otherwise and whatever others have removed since. */
  lemma OwnWritesSuffice(cfg: Config, cs: seq<ManagedCluster>, events: seq<Event>)
    requires |MyClusters(cfg.Me(), cs)| <= 1 && AllPrefixed(MyClusters(cfg.Me(), cs))
    requires ReadsOwnWrites(cfg, [cs], events, 0)
    ensures AtMostOne(cfg, Run(cfg, [cs], events))
  {
    hide Next, Creates, MyClusters, AllPrefixed, LabelsKept, Run, ReadsOwnWrites, NeverMisses;
    SettledNeverMisses(cfg, [cs], events, 0);
    AtMostOneExactlyWhen(cfg, [cs], events);
  }

  lemma {:induction false} SettledNeverMisses(cfg: Config, h: History, events: seq<Event>, since: nat)
    requires Settled(cfg, h, since) && ReadsOwnWrites(cfg, h, events, since)
    ensures NeverMisses(cfg, h, events)
    decreases |events|
  {
    hide Next, Creates, Misses, MyClusters, AllPrefixed, LabelsKept, Settled;
    if events != [] {
      NothingMissed(cfg, h, events[0], since);
      SettledOn(cfg, h, events[0], since);
      SettledNeverMisses(cfg, h + [Next(cfg, h, events[0])], events[1..],
        if Creates(cfg, h, events[0]) then |h| else since);
    }
  }

  lemma NothingMissed(cfg: Config, h: History, e: Event, since: nat)
    requires Settled(cfg, h, since) && (e.Register? ==> since <= Shown(h, e))
    ensures !Misses(cfg, h, e)
  {
    hide MyClusters, AllPrefixed, FirstCluster, NameTaken, LabelsKept;
    if e.Register? {
      var i := Shown(h, e);
      FirstClusterIsHead(cfg.Me(), h[i]);
      var mine := MyClusters(cfg.Me(), Now(h));
      assert mine != [] ==> mine[0] in mine && mine[0] in MyClusters(cfg.Me(), h[i]);
    }
  }

  lemma SettledOn(cfg: Config, h: History, e: Event, since: nat)
    requires Settled(cfg, h, since)
    ensures Settled(cfg, h + [Next(cfg, h, e)], if Creates(cfg, h, e) then |h| else since)
  {
    hide MyClusters, Next, Creates, LabelsKept, ClusterLabels, AllPrefixed;
    var me, n := cfg.Me(), h + [Next(cfg, h, e)];
    NextIs(cfg, h, e);
    NextPrefixed(cfg, h, e);
    assert Now(n) == Next(cfg, h, e) && n[|h|] == Now(n);
    assert forall i | 0 <= i < |h| :: n[i] == h[i];
  }

  lemma NextPrefixed(cfg: Config, h: History, e: Event)
    requires AllPrefixed(MyClusters(cfg.Me(), Now(h)))
    ensures AllPrefixed(MyClusters(cfg.Me(), Next(cfg, h, e)))
  {
    hide MyClusters, Next, Creates, LabelsKept, ClusterLabels;
    NextIs(cfg, h, e);
    var mine, n := MyClusters(cfg.Me(), Now(h)), MyClusters(cfg.Me(), Next(cfg, h, e));
    if Creates(cfg, h, e) && LabelsKept(cfg) {
    } else {
      PrefixedStay(mine, n);
    }
  }

  // -------- the look-up after the creation --------

  predicate ByOthers(events: seq<Event>) {
    forall e | e in events :: !e.Register?
  }

  // What becomes of the instance's one cluster while others act, list by list.
  lemma {:induction false} Followed(cfg: Config, h: History, events: seq<Event>, mc: ManagedCluster, t: nat)
    requires ByOthers(events) && t <= |events| && MyClusters(cfg.Me(), Now(h)) in {[], [mc]}
    ensures |Run(cfg, h, events)| == |h| + |events| && h <= Run(cfg, h, events)
    ensures MyClusters(cfg.Me(), Run(cfg, h, events)[|h| - 1 + t]) ==
      if Remove(mc.name) in events[..t] then [] else MyClusters(cfg.Me(), Now(h))
    decreases |events|
  {
    hide Next, MyClusters, Creates, LabelsKept;
    RunExtends(cfg, h, events);
    if events != [] {
      var e, rest := events[0], events[1..];
      var n := h + [Next(cfg, h, e)];
      assert e in events && (forall x | x in rest :: x in events);
      OtherIs(cfg, h, e, mc);
      Followed(cfg, n, rest, mc, if t == 0 then 0 else t - 1);
      if t == 0 {
        assert Run(cfg, h, events)[|h| - 1] == h[|h| - 1];
      } else {
        assert events[..t] == [e] + rest[..t - 1];
      }
    }
  }

  lemma OtherIs(cfg: Config, h: History, e: Event, mc: ManagedCluster)
    requires !e.Register? && MyClusters(cfg.Me(), Now(h)) in {[], [mc]}
    ensures MyClusters(cfg.Me(), Next(cfg, h, e)) == if e == Remove(mc.name) then [] else MyClusters(cfg.Me(), Now(h))
  {
    hide MyClusters, WithoutCluster;
    match e
    case Remove(name) => RemovedIs(cfg.Me(), Now(h), mc, name);
    case Foreign(x) =>
      MyClustersAppend(cfg.Me(), Now(h), [x]);
      if !Matches(cfg.Me(), x.labels) {
        NotMine(cfg.Me(), x);
      }
  }

  lemma NotMine(me: Key, x: ManagedCluster)
    requires !Matches(me, x.labels)
    ensures MyClusters(me, [x]) == []
  {
    assert [x][1..] == [];
  }

  lemma {:induction false} RemovedIs(me: Key, cs: seq<ManagedCluster>, mc: ManagedCluster, name: string)
    requires MyClusters(me, cs) in {[], [mc]}
    ensures MyClusters(me, WithoutCluster(cs, name)) == if name == mc.name then [] else MyClusters(me, cs)
  {
    if cs != [] {
      var head, rest := if cs[0].name == name then [] else [cs[0]], WithoutCluster(cs[1..], name);
      if Matches(me, cs[0].labels) {
        assert MyClusters(me, cs) == [cs[0]] + MyClusters(me, cs[1..]);
        assert cs[0] == mc && MyClusters(me, cs[1..]) == [] by {
          assert MyClusters(me, cs)[0] == cs[0] && |MyClusters(me, cs[1..])| == 0;
        }
      } else {
        assert MyClusters(me, cs) == MyClusters(me, cs[1..]);
      }
      RemovedIs(me, cs[1..], mc, name);
      MyClustersAppend(me, head, rest);
    }
  }

  lemma FirstMade(cfg: Config, h: History, e: Event)
    requires Creates(cfg, h, e) && MyClusters(cfg.Me(), Now(h)) == []
    ensures MyClusters(cfg.Me(), Next(cfg, h, e)) ==
      if LabelsKept(cfg) then [ManagedCluster("cluster-" + e.suffix, ClusterLabels(cfg))] else []
  {
    NextIs(cfg, h, e);
    hide Next, MyClusters, Creates, LabelsKept;
  }

  lemma LookedUpLater(cfg: Config, h: History, since: seq<Event>, mc: ManagedCluster, i: nat)
    requires ByOthers(since) && MyClusters(cfg.Me(), Now(h)) in {[], [mc]} && HasClusterPrefix(mc.name)
    requires |h| - 1 <= i < |h| + |since|
    ensures var n := Run(cfg, h, since);
      && |n| == |h| + |since|
      && (LookUpCrashes(cfg, n, i) <==> MyClusters(cfg.Me(), Now(h)) == [] || Remove(mc.name) in since[..i - (|h| - 1)])
  {
    hide MyClusters, FirstCluster, AllPrefixed, Run;
    Followed(cfg, h, since, mc, i - (|h| - 1));
    OnePrefixed(mc);
    FirstClusterIsHead(cfg.Me(), Run(cfg, h, since)[i]);
  }

  lemma LookedUpEarlier(cfg: Config, h: History, n: History, i: nat)
    requires i < |h| && h <= n && AllPrefixed(MyClusters(cfg.Me(), h[i]))
    ensures LookUpCrashes(cfg, n, i) <==> MyClusters(cfg.Me(), h[i]) == []
  {
    FirstClusterIsHead(cfg.Me(), h[i]);
    assert n[i] == h[i];
    hide MyClusters, FirstCluster, AllPrefixed;
  }

  /** The look-up after the first creation, whichever list it is shown and whatever others
      have done since: it finds nothing, and the step crashes, exactly when the list is
      older than the creation and showed no cluster, or the labels were overridden, or
      somebody had removed the new cluster by the time of that list. */
  lemma LookUpCrashesExactlyWhen(cfg: Config, h: History, e: Event, since: seq<Event>, i: nat)
    requires Creates(cfg, h, e) && ByOthers(since) && i <= |h| + |since|
    requires MyClusters(cfg.Me(), Now(h)) == [] && forall j | 0 <= j < |h| :: AllPrefixed(MyClusters(cfg.Me(), h[j]))
    ensures LookUpCrashes(cfg, Run(cfg, h, [e] + since), i) <==>
      if i < |h| then MyClusters(cfg.Me(), h[i]) == []
      else !LabelsKept(cfg) || Remove("cluster-" + e.suffix) in since[..i - |h|]
  {
    assert e.Register?;
    hide Next, MyClusters, Creates, LabelsKept, AllPrefixed, LookUpCrashes;
    var h1, mc := h + [Next(cfg, h, e)], ManagedCluster("cluster-" + e.suffix, ClusterLabels(cfg));
    assert ([e] + since)[1..] == since;
    FirstMade(cfg, h, e);
    assert Now(h1) == Next(cfg, h, e);
    RunExtends(cfg, h1, since);
    hide Run;
    if i < |h| {
      LookedUpEarlier(cfg, h, Run(cfg, h1, since), i);
    } else {
      LookedUpLater(cfg, h1, since, mc, i);
    }
  }

  lemma OnePrefixed(mc: ManagedCluster)
    requires HasClusterPrefix(mc.name)
    ensures AllPrefixed([mc]) && AllPrefixed([])
  {}

  /** A first registration with the labels kept and nobody else about: shown the list from
      before the creation it crashes, shown the one after it does not. */
  lemma LaggingLookUpCrashes(cfg: Config)
    requires LabelsKept(cfg)
    ensures LookUpCrashes(cfg, Run(cfg, [[]], [Register(0, "a")]), 0)
    ensures !LookUpCrashes(cfg, Run(cfg, [[]], [Register(0, "a")]), 1)
  {
    var h: History, e := [[]], Register(0, "a");
    assert Creates(cfg, h, e) && MyClusters(cfg.Me(), []) == [];
    assert [e] + [] == [e];
    LookUpCrashesExactlyWhen(cfg, h, e, [], 0);
    LookUpCrashesExactlyWhen(cfg, h, e, [], 1);
  }

  /** Two passes in a row that are shown the list from before the first: two clusters. */
  lemma StaleListDuplicates(cfg: Config)
    requires LabelsKept(cfg)
    ensures !AtMostOne(cfg, Run(cfg, [[]], [Register(0, "a"), Register(0, "b")]))
  {
    var events := [Register(0, "a"), Register(0, "b")];
    var one := [[]] + [Next(cfg, [[]], events[0])];
    assert !NameTaken([], "cluster-" + "a");
    NextIs(cfg, [[]], events[0]);
    assert "cluster-" + "a" != "cluster-" + "b" by { assert ("cluster-" + "a")[8] != ("cluster-" + "b")[8]; }
    assert !NameTaken(Now(one), "cluster-" + "b");
    assert events[1..][0] == events[1];
    assert Misses(cfg, one, events[1]);
    AtMostOneExactlyWhen(cfg, [[]], events);
  }
}
