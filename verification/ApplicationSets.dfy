/** The ApplicationSet operations of an instance, on copies that are edited in place; the
    day-2 look-up hands out one object for all names. */
module ApplicationSets {
  import opened Generators
  import opened Conditions
  import opened Hub
  import opened Lifecycle
  import opened Deletion
  import opened Client

  // The generator that UpdateApplicationSet builds.
  method BuildGenerator(i: Instance, appSet: string, t: Template, server: string, isDay2: bool) returns (gen: Generator)
    ensures gen == NewGenerator(i, appSet, t, server, isDay2)
    ensures Suits(i, appSet, t, server, isDay2, gen)
  {
    hide Suits, HelmOf;
    NewGeneratorSuits(i, appSet, t, server, isDay2);
    var name := i.uid;
    if isDay2 {
      name := name + "-" + appSet;
    }
    var finalizers: seq<Finalizer> := [];
    if ResourcesFinalizer !in t.finalizers {
      finalizers := t.finalizers + [ResourcesFinalizer];
    }
    var params: seq<HelmParameter> := [];
    if t.chart != "" {
      params := GetHelmParameters(t.helm, i.parameters, appSet, isDay2);
    }
    gen := List(i.key.name, i.key.namespace,
      GeneratorTemplate(name, isDay2, server, i.key.namespace, finalizers, params));
  }

  lemma LastIsOwned(k: Key, gens: seq<Generator>, g: Generator)
    requires Owns(k, g)
    ensures HasOwn(k, gens + [g])
  {
    assert Owns(k, (gens + [g])[|gens|]);
  }

  // Only the version and the template of the copy matter to a write.
  lemma SameWrite(me: Key, w: Server, name: string, a: AppSet, b: AppSet, gens: seq<Generator>, r: Reply)
    requires a.version == b.version && a.template == b.template
    ensures WriteAppSet(me, w, name, a, gens, r) == WriteAppSet(me, w, name, b, gens, r)
  {}

  /** UpdateApplicationSet: append the instance's generator unless one is there, and write. */
  method UpdateApplicationSet(c: ApiClient, appSet: AppSetObject, server: string, isDay2: bool, s: Site)
      returns (ok: bool)
    modifies c, appSet
    ensures (c.hub, ok) == JoinAppSet(c.cfg, c.env, old(c.hub), old(appSet.name), old(appSet.Value()), server, isDay2,
        s)
    ensures appSet.name == old(appSet.name)
    ensures ok ==> HasOwn(c.cfg.Me(), appSet.generators)
  {
    hide WriteAppSet, NewGenerator, HasOwn, Owns;
    var me := c.cfg.Me();
    var found := FindOwn(me, appSet.generators);
    if found {
      return true;
    }
    var gen := BuildGenerator(c.cfg.instance, appSet.name, appSet.template, server, isDay2);
    LastIsOwned(me, appSet.generators, gen);
    ghost var copy := appSet.Value();
    appSet.generators := appSet.generators + [gen];
    SameWrite(me, c.hub, appSet.name, copy, appSet.Value(), appSet.generators, c.env.reply(s));
    ok := c.UpdateAppSet(s, appSet);
  }

  /** CreateDay1Application. */
  method CreateDay1Application(c: ApiClient) returns (ok: bool)
    modifies c
    ensures (c.hub, ok) == CreateDay1(c.cfg, c.env, old(c.hub))
  {
    hide JoinAppSet, Handled;
    var appSet := new AppSetObject();
    var o, found := c.GetAppSet(GetDefinition, c.cfg.definition, appSet);
    if !found {
      return false;
    }
    if c.cfg.labelNamespace {
      o := c.Call(LabelNamespace);
      if o != Served {
        return false;
      }
    }
    ok := UpdateApplicationSet(c, appSet, "https://kubernetes.default.svc", false, UpdateDefinition);
  }

  // The filtering loop of both delete functions, and the write after it.
  method LeaveAppSet(c: ApiClient, appSet: AppSetObject, s: Site) returns (ok: bool)
    modifies c, appSet
    ensures (c.hub, ok) == WriteAppSet(c.cfg.Me(), old(c.hub), old(appSet.name), old(appSet.Value()),
                                       Without(c.cfg.Me(), old(appSet.generators)), c.env.reply(s))
    ensures appSet.name == old(appSet.name)
    ensures ok ==> appSet.name in c.hub.appSets && appSet.Value() == c.hub.appSets[appSet.name]
  {
    hide WriteAppSet;
    ghost var copy := appSet.Value();
    var generators := DropOwn(c.cfg.Me(), appSet.generators);
    appSet.generators := generators;
    SameWrite(c.cfg.Me(), c.hub, appSet.name, copy, appSet.Value(), generators, c.env.reply(s));
    ok := c.UpdateAppSet(s, appSet);
  }

  /** DeleteDay1Application. */
  method DeleteDay1Application(c: ApiClient) returns (ok: bool)
    modifies c
    ensures (c.hub, ok) == LeaveDay1(c.cfg, c.env, old(c.hub))
  {
    hide WriteAppSet, Handled;
    var appSet := new AppSetObject();
    var o, found := c.GetAppSet(GetDefinition, c.cfg.definition, appSet);
    if o != Served {
      return false;
    }
    if !found {
      return true;
    }
    ok := LeaveAppSet(c, appSet, UpdateDefinition);
  }

  // One object, handed out as every entry, holds what was fetched last.
  ghost predicate AllTheSame(sets: seq<AppSetObject>, f: Fetched)
    reads sets
  {
    && |sets| == f.count
    && (forall i | 0 <= i < |sets| :: sets[i] == sets[0])
    && (f.last.Some? <==> sets != [])
    && (sets != [] ==> sets[0].name == f.last.value.0 && sets[0].Value() == f.last.value.1)
  }

  /** getDay2Appsets: the object is allocated before the loop and passed to every Get, so
      all entries of the result are that object. */
  method GetDay2Appsets(c: ApiClient, failOnMissing: bool) returns (ok: bool, sets: seq<AppSetObject>)
    modifies c
    ensures var f := FetchSetups(c.cfg, c.env, old(c.hub), 0, failOnMissing, NothingFetched(old(c.hub)));
      c.hub == f.hub && ok == f.ok && (ok ==> AllTheSame(sets, f))
    ensures forall x | x in sets :: fresh(x)
  {
    hide Handled;
    sets := [];
    var appSet := new AppSetObject();
    var names := c.cfg.setups;
    ghost var sofar := NothingFetched(c.hub);
    var i := 0;
    while i < |names|
      invariant 0 <= i <= |names|
      invariant FetchSetups(c.cfg, c.env, old(c.hub), 0, failOnMissing, NothingFetched(old(c.hub)))
             == FetchSetups(c.cfg, c.env, c.hub, i, failOnMissing, sofar)
      invariant sofar.ok && AllTheSame(sets, sofar)
      invariant forall k | 0 <= k < |sets| :: sets[k] == appSet
    {
      var o, found := c.GetAppSet(GetSetup(i), names[i], appSet);
      if o != Served || (!found && failOnMissing) {
        return false, [];
      }
      if found {
        sets := sets + [appSet];
        sofar := Fetched(c.hub, true, sofar.count + 1, Some((names[i], appSet.Value())));
      }
      i := i + 1;
    }
    ok := true;
  }

  /** CreateDay2Applications: since the entries are one object, the first round joins the
      set that was fetched last and the others find the generator in place. */
  method CreateDay2Applications(c: ApiClient) returns (ok: bool)
    modifies c
    ensures (c.hub, ok) == CreateDay2(c.cfg, c.env, old(c.hub))
  {
    hide Handled, JoinAppSet, HasOwn, FetchSetups;
    var fetched, sets := GetDay2Appsets(c, true);
    if !fetched {
      return false;
    }
    ghost var f := FetchSetups(c.cfg, c.env, old(c.hub), 0, true, NothingFetched(old(c.hub)));
    var o := c.Call(GetKubeconfigForSetup);
    if o != Served || c.cfg.Me() !in c.hub.kubeconfigs {
      return false;
    }
    var server := c.hub.kubeconfigs[c.cfg.Me()];
    if |sets| == 0 {
      return true;
    }
    assert sets[0] in sets;
    ok := UpdateApplicationSet(c, sets[0], server, true, UpdateSetup(0));
    if !ok {
      return false;
    }
    ghost var joined := c.hub;
    for i := 1 to |sets|
      invariant c.hub == joined
      invariant HasOwn(c.cfg.Me(), sets[0].generators)
    {
      AlreadyJoined(c.cfg, c.env, c.hub, sets[i].name, sets[i].Value(), server, UpdateSetup(i));
      ok := UpdateApplicationSet(c, sets[i], server, true, UpdateSetup(i));
      assert ok && c.hub == joined;
    }
    ok := true;
  }

  lemma AlreadyJoined(cfg: Config, env: Env, w: Server, name: string, copy: AppSet, server: string, s: Site)
    requires HasOwn(cfg.Me(), copy.generators)
    ensures JoinAppSet(cfg, env, w, name, copy, server, true, s) == (w, true)
  {}

  /** DeleteDay2Application. */
  method DeleteDay2Application(c: ApiClient) returns (ok: bool)
    modifies c
    ensures (c.hub, ok) == LeaveDay2(c.cfg, c.env, old(c.hub))
  {
    hide Handled, WriteAppSet, Without, FetchSetups;
    var fetched, sets := GetDay2Appsets(c, false);
    if !fetched {
      return false;
    }
    if |sets| == 0 {
      return true;
    }
    ghost var name, copy := sets[0].name, sets[0].Value();
    ghost var w := c.hub;
    var i := 0;
    while i < |sets|
      invariant 0 <= i <= |sets|
      invariant sets[0].name == name
      invariant LeaveRepeatedly(c.cfg, c.env, w, name, copy, 0, |sets|)
             == LeaveRepeatedly(c.cfg, c.env, c.hub, name, sets[0].Value(), i, |sets|)
    {
      assert sets[i] in sets;
      ok := LeaveAppSet(c, sets[i], UpdateSetup(i));
      if !ok {
        return false;
      }
      i := i + 1;
    }
    ok := true;
  }
}
