/** The day-2 fan-out to every setup ApplicationSet: what the look-up's one object makes of
    it, and what one object per name would. */
module DayTwo {
  import opened Generators
  import opened Conditions
  import opened Hub
  import opened Lifecycle
  import opened HubInvariants
  import opened Convergence
  import Passes
  import opened Runs
  import opened Liveness
  import opened Client
  import ApplicationSets

  predicate AllExist(cfg: Config, w: Server) {
    forall i | 0 <= i < |cfg.setups| :: cfg.setups[i] in w.appSets
  }

  // -------- as it is --------

  lemma {:induction false} LastIsFetched(cfg: Config, env: Env, w: Server, i: nat, sofar: Fetched)
    requires Calm(env) && AllExist(cfg, w) && i < |cfg.setups|
    ensures var last := cfg.setups[|cfg.setups| - 1];
      FetchSetups(cfg, env, w, i, true, sofar).last == Some((last, w.appSets[last]))
    decreases |cfg.setups| - i
  {
    var name := cfg.setups[i];
    var next := Fetched(w, true, sofar.count + 1, Some((name, w.appSets[name])));
    if i + 1 < |cfg.setups| {
      LastIsFetched(cfg, env, w, i + 1, next);
    }
  }

  /** With every call successful and every named set there, creation reports success, yet
      the only set it has joined is the last of the list. */
  lemma OnlyLastIsJoined(cfg: Config, env: Env, w: Server)
    requires Calm(env) && AllExist(cfg, w) && cfg.setups != [] && cfg.Me() in w.kubeconfigs
    ensures var (n, ok) := CreateDay2(cfg, env, w);
      && ok && n.appSets.Keys == w.appSets.Keys
      && Listed(cfg, n, cfg.setups[|cfg.setups| - 1])
      && forall m | m in w.appSets && m != cfg.setups[|cfg.setups| - 1] :: n.appSets[m] == w.appSets[m]
  {
    var last := cfg.setups[|cfg.setups| - 1];
    LastIsFetched(cfg, env, w, 0, NothingFetched(w));
    CalmFetch(cfg, env, w, 0, true, NothingFetched(w));
    JoinedHere(cfg, env, w, last, w.kubeconfigs[cfg.Me()], UpdateSetup(0));
    hide FetchSetups, JoinAppSet, HasOwn;
  }

  // A join in a calm pass, spelled out.
  lemma CalmJoinIs(cfg: Config, env: Env, n: Server, name: string, copy: AppSet, server: string, s: Site)
    requires Calm(env) && name in n.appSets
    ensures JoinAppSet(cfg, env, n, name, copy, server, true, s) ==
      if HasOwn(cfg.Me(), copy.generators) then (n, true)
      else if n.appSets[name].version != copy.version then (n, false)
      else
        var g := NewGenerator(cfg.instance, name, copy.template, server, true);
        (n.(rv := n.rv + 1, appSets := n.appSets[name := AppSet(n.rv + 1, copy.template, copy.generators + [g])]), true)
  {
    hide NewGenerator, HasOwn;
  }

  lemma JoinedHere(cfg: Config, env: Env, w: Server, name: string, server: string, s: Site)
    requires Calm(env) && name in w.appSets
    ensures var (n, ok) := JoinAppSet(cfg, env, w, name, w.appSets[name], server, true, s);
      && ok && n.appSets.Keys == w.appSets.Keys && Listed(cfg, n, name)
      && forall m | m in w.appSets && m != name :: n.appSets[m] == w.appSets[m]
  {
    var gens := w.appSets[name].generators;
    var g := NewGenerator(cfg.instance, name, w.appSets[name].template, server, true);
    ApplicationSets.LastIsOwned(cfg.Me(), gens, g);
    CalmJoinIs(cfg, env, w, name, w.appSets[name], server, s);
    hide NewGenerator, HasOwn, JoinAppSet;
  }

  // While the setups are looked up, a set that lists the instance goes on doing so, and
  // what the copy shows was true before.
  lemma {:induction false} FetchStaysListed(cfg: Config, env: Env, w: Server, a: Server, i: nat, sofar: Fetched,
      m: string)
    requires i <= |cfg.setups| && StaysListed(cfg, env, w, a, m)
    requires sofar.last.Some? && sofar.last.value.0 == m && HasOwn(cfg.Me(), sofar.last.value.1.generators) ==>
        Listed(cfg, w, m)
    ensures var f := FetchSetups(cfg, env, a, i, true, sofar);
      && StaysListed(cfg, env, w, f.hub, m)
      && (f.last.Some? && f.last.value.0 == m && HasOwn(cfg.Me(), f.last.value.1.generators) ==> Listed(cfg, w, m))
    decreases |cfg.setups| - i
  {
    hide Handled, StaysListed, HasOwn;
    if i < |cfg.setups| {
      var a1, name := Handled(cfg, env, a, GetSetup(i)), cfg.setups[i];
      HandledStaysListed(cfg, env, w, a, GetSetup(i), m);
      assert Listed(cfg, a1, m) ==> Listed(cfg, w, m) by {
        StaysMeans(cfg, env, w, a1, m);
      }
      if Ok(env, GetSetup(i)) && name in a1.appSets {
        FetchStaysListed(cfg, env, w, a1, i + 1, Fetched(a1, true, sofar.count + 1, Some((name, a1.appSets[name]))), m);
      }
    }
  }

  lemma StaysMeans(cfg: Config, env: Env, w: Server, n: Server, m: string)
    requires StaysListed(cfg, env, w, n, m)
    ensures Listed(cfg, n, m) ==> Listed(cfg, w, m)
  {}

  // A join that succeeds on a copy of another set leaves set `m` as it is; on a copy of
  // `m` itself it is listed afterwards, if it was not already.
  lemma JoinStaysListed(cfg: Config, env: Env, w: Server, a: Server, name: string, copy: AppSet, url: string, m: string)
    requires StaysListed(cfg, env, w, a, m)
    requires name == m && HasOwn(cfg.Me(), copy.generators) ==> Listed(cfg, w, m)
    ensures var (n, ok) := JoinAppSet(cfg, env, a, name, copy, url, true, UpdateSetup(0));
      && (m != name ==> StaysListed(cfg, env, w, n, m))
      && (m == name && ok && Spared(cfg, env, w) ==> Listed(cfg, n, m))
  {
    var n := Handled(cfg, env, a, UpdateSetup(0));
    HandledStaysListed(cfg, env, w, a, UpdateSetup(0), m);
    ApplicationSets.LastIsOwned(cfg.Me(), copy.generators, NewGenerator(cfg.instance, name, copy.template, url, true));
    assert Handled(cfg, env, a, UpdateSetup(0)) == At(cfg.Me(), a, env.reply(UpdateSetup(0)));
    hide At, NewGenerator, HasOwn, Spared;
  }

  lemma CreationStaysListed(cfg: Config, env: Env, w: Server, m: string)
    requires cfg.setups != [] && CreateDay2(cfg, env, w).1
    ensures var n, last := CreateDay2(cfg, env, w).0, cfg.setups[|cfg.setups| - 1];
      if m == last then Spared(cfg, env, w) ==> Listed(cfg, n, m) else StaysListed(cfg, env, w, n, m)
  {
    var f := FetchSetups(cfg, env, w, 0, true, NothingFetched(w));
    FetchSetupsEvolves(cfg, env, w, true);
    FetchStaysListed(cfg, env, w, w, 0, NothingFetched(w), m);
    var w1 := Handled(cfg, env, f.hub, GetKubeconfigForSetup);
    HandledStaysListed(cfg, env, w, f.hub, GetKubeconfigForSetup, m);
    hide Handled, StaysListed, FetchSetups, JoinAppSet, HasOwn, Evolves;
    JoinStaysListed(cfg, env, w, w1, f.last.value.0, f.last.value.1, w1.kubeconfigs[cfg.Me()], m);
  }

  /** So whenever creation reports success, under any environment, no setup but the last
      one is listed that was not before; and if nobody removes a set in the meantime, every
      named setup ends up joined exactly when all of them but the last already were. */
  lemma EverySetupJoinedExactlyWhen(cfg: Config, env: Env, w: Server)
    requires cfg.setups != [] && CreateDay2(cfg, env, w).1
    ensures var n, last := CreateDay2(cfg, env, w).0, cfg.setups[|cfg.setups| - 1];
      && (forall m | m != last && Listed(cfg, n, m) :: Listed(cfg, w, m))
      && (Spared(cfg, env, w) ==>
            ((forall i | 0 <= i < |cfg.setups| :: Listed(cfg, n, cfg.setups[i])) <==>
             (forall i | 0 <= i < |cfg.setups| && cfg.setups[i] != last :: Listed(cfg, w, cfg.setups[i]))))
  {
    hide CreateDay2, Listed, Spared;
    var n, last := CreateDay2(cfg, env, w).0, cfg.setups[|cfg.setups| - 1];
    forall m ensures if m == last then Spared(cfg, env, w) ==> Listed(cfg, n, m) else StaysListed(cfg, env, w, n, m) {
      CreationStaysListed(cfg, env, w, m);
    }
    if Spared(cfg, env, w) && forall i | 0 <= i < |cfg.setups| :: Listed(cfg, n, cfg.setups[i]) {
      forall i | 0 <= i < |cfg.setups| && cfg.setups[i] != last ensures Listed(cfg, w, cfg.setups[i]) {
        assert Listed(cfg, n, cfg.setups[i]) && StaysListed(cfg, env, w, n, cfg.setups[i]);
      }
    }
  }

  /** Over whole lives: a setup that is neither the last one named nor the instance's own
      cluster definition is never joined, whatever happens. */
  lemma NeverJoined(cfg: Config, born: Life, events: seq<Event>, m: string)
    requires Newborn(cfg, born) && !Target(cfg, m)
    ensures !Listed(cfg, Run(cfg, born, events).hub, m)
  {
    EveryLife(cfg, born, events);
    hide Run, Newborn, HasOwn, Target;
  }

  /** And yet it may be recorded Ready: every completable instance that names such a setup
      has a life that gets there, and none in which the setup was ever joined. */
  lemma ReadyThoughNotJoined(cfg: Config, born: Life, i: nat)
    requires Newborn(cfg, born) && Completable(cfg) && i < |cfg.setups| && !Target(cfg, cfg.setups[i])
    ensures exists events :: EverReady(cfg, born, events)
    ensures forall events :: EverReady(cfg, born, events) ==> !Listed(cfg, Run(cfg, born, events).hub, cfg.setups[i])
  {
    ReadyIsReachableExactlyWhen(cfg, born);
    hide Run, Newborn, EverReady, Listed, Completable, Target;
    forall events | EverReady(cfg, born, events) ensures !Listed(cfg, Run(cfg, born, events).hub, cfg.setups[i]) {
      NeverJoined(cfg, born, events, cfg.setups[i]);
    }
  }

  const TWO_SETUPS: Config :=
    Config(Instance(Key("app", "team"), "uid", []), None, false, false, false, false, "cluster",
      ["monitoring", "logging"], map[], false, 0)

  // An instance with two setups on an empty server: Ready is in reach, the first setup is not.
  lemma FirstOfTwoIsLeftOut()
    ensures var born := Life(Passes.Fresh, Server(0, map[], [], [], map[], map[], {}, {}), false, Alive);
      && Newborn(TWO_SETUPS, born)
      && (exists events :: EverReady(TWO_SETUPS, born, events))
      && (forall events :: !Listed(TWO_SETUPS, Run(TWO_SETUPS, born, events).hub, "monitoring"))
  {
    var born := Life(Passes.Fresh, Server(0, map[], [], [], map[], map[], {}, {}), false, Alive);
    assert TWO_SETUPS.setups[0] == "monitoring" && TWO_SETUPS.setups[1] == "logging"
      && TWO_SETUPS.definition == "cluster";
    assert "monitoring"[0] != "logging"[0] && "monitoring"[0] != "cluster"[0];
    assert !Target(TWO_SETUPS, "monitoring");
    assert Newborn(TWO_SETUPS, born) && Completable(TWO_SETUPS);
    hide Run, Newborn, EverReady, Listed, Completable, Target;
    ReadyThoughNotJoined(TWO_SETUPS, born, 0);
    forall events ensures !Listed(TWO_SETUPS, Run(TWO_SETUPS, born, events).hub, "monitoring") {
      NeverJoined(TWO_SETUPS, born, events, "monitoring");
    }
  }

  // -------- as it is meant --------

  // No set that has to be written is named twice.
  predicate NoStaleWrite(cfg: Config, w: Server, names: seq<string>) {
    forall i, j | 0 <= i < j < |names| && names[i] == names[j] :: Listed(cfg, w, names[i])
  }

  lemma NoStaleSnoc(cfg: Config, w: Server, names: seq<string>, i: nat)
    requires i < |names| && NoStaleWrite(cfg, w, names[..i])
    ensures NoStaleWrite(cfg, w, names[..i + 1]) <==> names[i] !in names[..i] || Listed(cfg, w, names[i])
    ensures !NoStaleWrite(cfg, w, names[..i + 1]) ==> !NoStaleWrite(cfg, w, names)
  {
    hide Listed;
    var a, b := names[..i], names[..i + 1];
    assert b == a + [names[i]];
    if names[i] in a && !Listed(cfg, w, names[i]) {
      var j :| 0 <= j < i && a[j] == names[i];
      assert b[j] == b[i] && names[j] == names[i];
    }
  }

  /** The look-up with an object of its own for every name. */
  method GetEachAppset(c: ApiClient) returns (sets: seq<AppSetObject>)
    requires Calm(c.env) && AllExist(c.cfg, c.hub)
    modifies c
    ensures c.hub == old(c.hub) && |sets| == |c.cfg.setups|
    ensures forall i | 0 <= i < |sets| :: fresh(sets[i]) && sets[i].name == c.cfg.setups[i]
    ensures forall i | 0 <= i < |sets| ::
        c.cfg.setups[i] in c.hub.appSets && sets[i].Value() == c.hub.appSets[c.cfg.setups[i]]
    ensures forall i, j | 0 <= i < j < |sets| :: sets[i] != sets[j]
  {
    sets := [];
    for i := 0 to |c.cfg.setups|
      invariant c.hub == old(c.hub) && |sets| == i
      invariant forall k | 0 <= k < i :: fresh(sets[k]) && sets[k].name == c.cfg.setups[k]
      invariant forall k | 0 <= k < i :: sets[k].Value() == c.hub.appSets[c.cfg.setups[k]]
      invariant forall k, j | 0 <= k < j < i :: sets[k] != sets[j]
    {
      var appSet := new AppSetObject();
      var o, found := c.GetAppSet(GetSetup(i), c.cfg.setups[i], appSet);
      sets := sets + [appSet];
    }
  }

  // Where one set stands after some of the names: joined if it is among them.
  ghost predicate SetSoFar(cfg: Config, w: Server, n: Server, names: seq<string>, m: string)
    requires m in w.appSets
  {
    && m in n.appSets && |Own(cfg.Me(), n.appSets[m].generators)| <= 1
    && (m !in names || Listed(cfg, w, m) ==> n.appSets[m] == w.appSets[m])
    && (m in names && !Listed(cfg, w, m) ==> Listed(cfg, n, m) && w.rv < n.appSets[m].version)
  }

  ghost predicate JoinedSoFar(cfg: Config, w: Server, n: Server, names: seq<string>) {
    && n == w.(rv := n.rv, appSets := n.appSets) && w.rv <= n.rv
    && (forall m | m in w.appSets :: SetSoFar(cfg, w, n, names, m))
  }

  lemma PutKeeps(cfg: Config, w: Server, n: Server, names: seq<string>, name: string, a: AppSet)
    requires JoinedSoFar(cfg, w, n, names) && name in w.appSets && name !in names && !Listed(cfg, w, name)
    requires a.version == n.rv + 1 && HasOwn(cfg.Me(), a.generators) && |Own(cfg.Me(), a.generators)| <= 1
    ensures JoinedSoFar(cfg, w, n.(rv := n.rv + 1, appSets := n.appSets[name := a]), names + [name])
  {
    hide HasOwn, Own;
    var n' := n.(rv := n.rv + 1, appSets := n.appSets[name := a]);
    forall m | m in w.appSets ensures SetSoFar(cfg, w, n', names + [name], m) {
      assert SetSoFar(cfg, w, n, names, m);
    }
  }

  lemma SkipKeeps(cfg: Config, w: Server, n: Server, names: seq<string>, name: string)
    requires JoinedSoFar(cfg, w, n, names) && Listed(cfg, w, name)
    ensures JoinedSoFar(cfg, w, n, names + [name])
  {
    hide HasOwn, Own;
    forall m | m in w.appSets ensures SetSoFar(cfg, w, n, names + [name], m) {
      assert SetSoFar(cfg, w, n, names, m);
    }
  }

  lemma StaleExactlyWhen(cfg: Config, w: Server, n: Server, names: seq<string>, name: string)
    requires JoinedSoFar(cfg, w, n, names) && VersionsBounded(w) && name in w.appSets && !Listed(cfg, w, name)
    ensures name in n.appSets && (n.appSets[name].version == w.appSets[name].version <==> name !in names)
  {
    hide HasOwn, Own;
    assert SetSoFar(cfg, w, n, names, name);
  }

  lemma JoinsOn(cfg: Config, env: Env, w: Server, n: Server, names: seq<string>, name: string, server: string, s: Site)
    requires Calm(env) && JoinedSoFar(cfg, w, n, names) && VersionsBounded(w) && name in w.appSets
    ensures var (n', ok) := JoinAppSet(cfg, env, n, name, w.appSets[name], server, true, s);
      && (ok ==> JoinedSoFar(cfg, w, n', names + [name]))
      && (ok <==> name !in names || Listed(cfg, w, name))
  {
    hide NewGenerator, HasOwn, Own, Owns, JoinAppSet, JoinedSoFar, VersionsBounded, Calm;
    var copy := w.appSets[name];
    if Listed(cfg, w, name) {
      SkipKeeps(cfg, w, n, names, name);
      Unasked(cfg, env, n, name, copy, server, s);
    } else {
      var g := NewGenerator(cfg.instance, name, copy.template, server, true);
      StaleExactlyWhen(cfg, w, n, names, name);
      CalmJoinIs(cfg, env, n, name, copy, server, s);
      if name !in names {
        JoinedOwnsOne(cfg.Me(), copy.generators, g);
        ApplicationSets.LastIsOwned(cfg.Me(), copy.generators, g);
        PutKeeps(cfg, w, n, names, name, AppSet(n.rv + 1, copy.template, copy.generators + [g]));
      }
    }
  }

  lemma Unasked(cfg: Config, env: Env, n: Server, name: string, copy: AppSet, server: string, s: Site)
    requires HasOwn(cfg.Me(), copy.generators)
    ensures JoinAppSet(cfg, env, n, name, copy, server, true, s) == (n, true)
  {}

  // One round of the fan-out, on an object of its own.
  method JoinOne(c: ApiClient, appSet: AppSetObject, ghost w: Server, ghost names: seq<string>, url: string, s: Site)
      returns (ok: bool)
    requires Calm(c.env) && VersionsBounded(w) && JoinedSoFar(c.cfg, w, c.hub, names)
    requires appSet.name in w.appSets && appSet.Value() == w.appSets[appSet.name]
    modifies c, appSet
    ensures ok ==> JoinedSoFar(c.cfg, w, c.hub, names + [old(appSet.name)])
    ensures ok <==> old(appSet.name) !in names || Listed(c.cfg, w, old(appSet.name))
  {
    hide JoinAppSet, HasOwn, JoinedSoFar, Calm, VersionsBounded;
    JoinsOn(c.cfg, c.env, w, c.hub, names, appSet.name, url, s);
    ok := ApplicationSets.UpdateApplicationSet(c, appSet, url, true, s);
  }

  // The loop over the objects.
  method JoinEach(c: ApiClient, sets: seq<AppSetObject>, ghost w: Server, url: string) returns (ok: bool)
    requires Calm(c.env) && VersionsBounded(w) && JoinedSoFar(c.cfg, w, c.hub, [])
    requires |sets| == |c.cfg.setups| && forall i, j | 0 <= i < j < |sets| :: sets[i] != sets[j]
    requires forall k | 0 <= k < |sets| ::
               c.cfg.setups[k] in w.appSets && sets[k].name == c.cfg.setups[k]
                   && sets[k].Value() == w.appSets[c.cfg.setups[k]]
    modifies c, sets
    ensures ok <==> NoStaleWrite(c.cfg, w, c.cfg.setups)
    ensures ok ==> JoinedSoFar(c.cfg, w, c.hub, c.cfg.setups)
  {
    hide JoinedSoFar, Calm, VersionsBounded, NoStaleWrite, Listed;
    var names := c.cfg.setups;
    assert names[..0] == [];
    NothingStale(c.cfg, w);
    for i := 0 to |sets|
      invariant JoinedSoFar(c.cfg, w, c.hub, names[..i]) && NoStaleWrite(c.cfg, w, names[..i])
      invariant forall k | i <= k < |sets| :: sets[k].name == names[k] && sets[k].Value() == w.appSets[names[k]]
    {
      NoStaleSnoc(c.cfg, w, names, i);
      assert names[..i + 1] == names[..i] + [names[i]];
      ok := JoinOne(c, sets[i], w, names[..i], url, UpdateSetup(i));
      if !ok {
        return false;
      }
    }
    assert names[..|names|] == names;
    ok := true;
  }

  lemma NothingStale(cfg: Config, w: Server)
    ensures NoStaleWrite(cfg, w, [])
  {}

  /** With one object per name the intent holds: every named set lists the instance exactly
      once, no other set is touched, and it succeeds exactly when no set that has to be
      written is named twice. */
  method CreateEachDay2Application(c: ApiClient) returns (ok: bool)
    requires Calm(c.env) && AllExist(c.cfg, c.hub) && HubInv(c.cfg, c.hub) && c.cfg.Me() in c.hub.kubeconfigs
    modifies c
    ensures ok <==> NoStaleWrite(c.cfg, old(c.hub), c.cfg.setups)
    ensures ok ==> forall i | 0 <= i < |c.cfg.setups| ::
              c.cfg.setups[i] in c.hub.appSets && |Own(c.cfg.Me(), c.hub.appSets[c.cfg.setups[i]].generators)| == 1
    ensures ok ==> forall m | m in old(c.hub).appSets && m !in c.cfg.setups ::
              m in c.hub.appSets && c.hub.appSets[m] == old(c.hub).appSets[m]
  {
    ghost var w := c.hub;
    StartJoined(c.cfg, w);
    var sets := GetEachAppset(c);
    hide Own, HubInv, JoinedSoFar, Calm, VersionsBounded, NoStaleWrite;
    CalmCall(c.cfg, c.env, w, GetKubeconfigForSetup);
    var o, url := c.GetKubeconfig(GetKubeconfigForSetup);
    ok := JoinEach(c, sets, w, url.value);
    if ok {
      AllJoined(c.cfg, w, c.hub);
    }
  }

  lemma CalmCall(cfg: Config, env: Env, w: Server, s: Site)
    requires Calm(env)
    ensures Handled(cfg, env, w, s) == w && env.reply(s).outcome.Served?
  {}

  lemma AllJoined(cfg: Config, w: Server, n: Server)
    requires JoinedSoFar(cfg, w, n, cfg.setups) && AllExist(cfg, w)
    ensures forall i | 0 <= i < |cfg.setups| ::
              cfg.setups[i] in n.appSets && |Own(cfg.Me(), n.appSets[cfg.setups[i]].generators)| == 1
    ensures forall m | m in w.appSets && m !in cfg.setups :: m in n.appSets && n.appSets[m] == w.appSets[m]
  {
    forall i | 0 <= i < |cfg.setups|
      ensures cfg.setups[i] in n.appSets && |Own(cfg.Me(), n.appSets[cfg.setups[i]].generators)| == 1
    {
      var m := cfg.setups[i];
      assert SetSoFar(cfg, w, n, cfg.setups, m);
      assert Listed(cfg, n, m);
    }
    forall m | m in w.appSets && m !in cfg.setups ensures m in n.appSets && n.appSets[m] == w.appSets[m] {
      assert SetSoFar(cfg, w, n, cfg.setups, m);
    }
    hide HasOwn;
  }

  lemma StartJoined(cfg: Config, w: Server)
    requires HubInv(cfg, w)
    ensures JoinedSoFar(cfg, w, w, []) && VersionsBounded(w)
  {
    forall m | m in w.appSets ensures SetSoFar(cfg, w, w, [], m) {}
  }
}
