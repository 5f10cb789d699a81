/** Two instances of one cluster definition that race for its ApplicationSet.

    The run is one in which the calls of their passes really do alternate, and in which the
    version check decides. */
module Races {
  import opened Generators
  import opened Conditions
  import opened Hub
  import opened Lifecycle
  import opened Passes
  import opened Calls
  import opened Runs
  import opened Systems
  import Coexistence

  function Added(cfg: Config, w: Server): Generator
    requires cfg.definition in w.appSets
  {
    NewGenerator(cfg.instance, cfg.definition, w.appSets[cfg.definition].template, "https://kubernetes.default.svc",
      false)
  }

  // An instance that wants a definition which is there and does not list it.
  predicate Races(cfg: Config, w: Server) {
    && cfg.secretRef.None? && !cfg.labelNamespace
    && cfg.definition in w.appSets && !HasOwn(cfg.Me(), w.appSets[cfg.definition].generators)
  }

  // The change that the write of the definition comes to.
  function RaceChange(cfg: Config, w: Server, n: Server): Change
    requires Races(cfg, w)
  {
    if cfg.definition in n.appSets && n.appSets[cfg.definition].version == w.appSets[cfg.definition].version
    then Join(cfg.definition, Added(cfg, w)) else Nothing
  }

  function RaceCalls(cfg: Config, w: Server, n: Server): seq<Call>
    requires Races(cfg, w)
  {
    [Call(GetTemplate, w, Nothing)]
        + ([Call(GetDefinition, w, Nothing)] + [Call(UpdateDefinition, n, RaceChange(cfg, w, n))])
  }

  // Every call succeeds, but by the time the definition is written back it is on server `n`.
  function RaceReply(n: Server, s: Site): Reply {
    if s == UpdateDefinition then Reply(Served, Some(n)) else Reply(Served, None)
  }

  const NO_PROVIDER: ProviderView :=
    ProviderView(HostedState([], false, false, false), [], DeploymentState([], false, false), false, None, false, None)

  function RaceEnv(n: Server): Env {
    Env((s: Site) => RaceReply(n, s), 0, 0, true, [], NO_PROVIDER, None, "", [], [], false, [], [], [])
  }

  // What there is to know of it.
  predicate Brings(env: Env, n: Server) {
    && env.templateFound
    && env.reply(GetTemplate) == Reply(Served, None) && env.reply(GetDefinition) == Reply(Served, None)
    && env.reply(UpdateDefinition) == Reply(Served, Some(n))
  }

  lemma BroughtTo(cfg: Config, env: Env, w: Server, n: Server)
    requires Brings(env, n) && Rely(cfg.Me(), w, n)
    ensures Handled(cfg, env, w, GetTemplate) == w && Handled(cfg, env, w, GetDefinition) == w
        && Handled(cfg, env, w, UpdateDefinition) == n
  {
    hide Rely;
  }

  // The write of the definition, on the server as it is by then.
  lemma UpdateCalls(cfg: Config, env: Env, w: Server, n: Server)
    requires Races(cfg, w) && Brings(env, n) && Handled(cfg, env, w, UpdateDefinition) == n
    ensures var copy, url := w.appSets[cfg.definition], "https://kubernetes.default.svc";
      && JoinCalls(cfg, env, w, cfg.definition, copy, url, false, UpdateDefinition) ==
          [Call(UpdateDefinition, n, RaceChange(cfg, w, n))]
      && (JoinAppSet(cfg, env, w, cfg.definition, copy, url, false, UpdateDefinition).1 <==>
          RaceChange(cfg, w, n).Join?)
  {
    SameHandled(cfg, env, w, UpdateDefinition);
    hide At, Handled, NewGenerator, HasOwn;
  }

  lemma DefinitionCalls(cfg: Config, env: Env, w: Server, n: Server)
    requires Races(cfg, w) && Brings(env, n) && Rely(cfg.Me(), w, n)
    ensures CreateDay1Calls(cfg, env, w) ==
        [Call(GetDefinition, w, Nothing)] + [Call(UpdateDefinition, n, RaceChange(cfg, w, n))]
    ensures CreateDay1(cfg, env, w).1 <==> RaceChange(cfg, w, n).Join?
  {
    BroughtTo(cfg, env, w, n);
    UpdateCalls(cfg, env, w, n);
    hide Rely, HasOwn, Handled, JoinCalls, JoinAppSet, RaceChange;
  }

  lemma StageZero(cfg: Config, env: Env, st: St)
    requires cfg.secretRef.None? && Is(st, ClusterDefinitionCreated, False)
    ensures StageCalls(cfg, env, st, 0) == CreateDay1Calls(cfg, env, st.hub)
    ensures Stage(cfg, env, st, 0).err.Some? <==> !CreateDay1(cfg, env, st.hub).1
  {
    hide CreateDay1Calls, CreateDay1, OnlyChanges;
  }

  lemma StagesUnfold(cfg: Config, env: Env, st: St)
    ensures var r := Stage(cfg, env, st, 0);
      StagesCalls(cfg, env, st, 0) == StageCalls(cfg, env, st, 0) +
        if r.err.Some? then [] else StagesCalls(cfg, env, r.st, 1)
  {
    hide Stage, StageCalls;
  }

  lemma StartsFresh(cfg: Config, env: Env, w: Server)
    requires Handled(cfg, env, w, GetTemplate) == w
    ensures var st := PassStart(cfg, env, Passes.Fresh, w); st.hub == w && Is(st, ClusterDefinitionCreated, False)
  {
    hide Handled;
  }

  lemma PassUnfolds(cfg: Config, env: Env, w: Server)
    requires env.templateFound && Ok(env, GetTemplate) && Handled(cfg, env, w, GetTemplate) == w
    ensures PassCalls(cfg, env, Passes.Fresh, w) ==
      [Call(GetTemplate, w, Nothing)] + StagesCalls(cfg, env, PassStart(cfg, env, Passes.Fresh, w), 0)
  {
    hide Handled, StagesCalls, PassStart;
  }

  // The first pass starts with the definition, and ends there if it is refused.
  lemma PassStarts(cfg: Config, env: Env, w: Server)
    requires cfg.secretRef.None? && env.templateFound && Ok(env, GetTemplate) && Handled(cfg, env, w, GetTemplate) == w
    ensures var c := PassCalls(cfg, env, Passes.Fresh, w);
      var first := [Call(GetTemplate, w, Nothing)] + CreateDay1Calls(cfg, env, w);
      first <= c && (!CreateDay1(cfg, env, w).1 ==> c == first)
  {
    hide Handled, PassStart, CreateDay1Calls, CreateDay1, StageCalls, Stage, StagesCalls, PassCalls, Is;
    var st := PassStart(cfg, env, Passes.Fresh, w);
    StartsFresh(cfg, env, w);
    PassUnfolds(cfg, env, w);
    StageZero(cfg, env, st);
    StagesUnfold(cfg, env, st);
    var r := Stage(cfg, env, st, 0);
    var rest := if r.err.Some? then [] else StagesCalls(cfg, env, r.st, 1);
    var first := [Call(GetTemplate, w, Nothing)] + CreateDay1Calls(cfg, env, w);
    assert PassCalls(cfg, env, Passes.Fresh, w) == first + rest;
  }

  // The first three calls of a first pass; a write that is refused is the last one.
  lemma FirstCalls(cfg: Config, env: Env, w: Server, n: Server)
    requires Races(cfg, w) && Brings(env, n) && Rely(cfg.Me(), w, n)
    ensures RaceCalls(cfg, w, n) <= PassCalls(cfg, env, Passes.Fresh, w)
    ensures RaceChange(cfg, w, n).Nothing? ==> PassCalls(cfg, env, Passes.Fresh, w) == RaceCalls(cfg, w, n)
  {
    BroughtTo(cfg, env, w, n);
    DefinitionCalls(cfg, env, w, n);
    PassStarts(cfg, env, w);
    hide Rely, Handled, PassCalls, CreateDay1Calls, CreateDay1, RaceChange, HasOwn;
  }

  // -------- the run --------

  // Resident `k` starts its first pass.
  lemma Begins(s: System, k: nat, env: Env)
    requires k < |s.residents| && CanStart(s.residents[k]) && s.residents[k].stored == Passes.Fresh
        && !s.residents[k].deleting
    ensures var t, r := SystemStep(s, OfResident(k, Begin(env, true))), s.residents[k];
      && t.hub == s.hub && |t.residents| == |s.residents| && t.residents == s.residents[k := t.residents[k]]
      && t.residents[k].cfg == r.cfg && t.residents[k].work.Busy?
      && t.residents[k].work.calls == PassCalls(r.cfg, env, Passes.Fresh, s.hub)
  {
    hide PassCalls, Runs.Step;
  }

  // Its next call is handled.
  lemma Makes(s: System, k: nat, c: Call)
    requires k < |s.residents| && s.residents[k].work.Busy? && s.residents[k].work.calls != []
    requires s.residents[k].work.calls[0] == c && c.before == s.hub
    ensures var t, r := SystemStep(s, OfResident(k, Next)), s.residents[k];
      && t.hub == Apply(r.cfg, s.hub, c.change) && |t.residents| == |s.residents|
          && t.residents == s.residents[k := t.residents[k]]
      && t.residents[k].cfg == r.cfg && t.residents[k].work.Busy? && t.residents[k].work.calls == r.work.calls[1..]
  {
    NextIs(s, k);
    hide Apply, SystemStep;
  }

  // The server after the second instance has joined the definition.
  function Joined(cfg: Config, w: Server): Server
    requires cfg.definition in w.appSets
  {
    WithGenerators(w, cfg.definition, w.appSets[cfg.definition].generators + [Added(cfg, w)])
  }

  // The second one writes the definition back, and then the first one tries to.
  const BOTH_WRITE: seq<SystemEvent> := [OfResident(1, Next), OfResident(0, Next)]

  lemma RunCons(s: System, e: SystemEvent, rest: seq<SystemEvent>)
    ensures SystemRun(s, [e] + rest) == SystemRun(SystemStep(s, e), rest)
  {
    hide SystemStep;
    assert ([e] + rest)[1..] == rest;
  }

  lemma RunTwo(s: System, a: SystemEvent, b: SystemEvent)
    ensures SystemRun(s, [a, b]) == SystemStep(SystemStep(s, a), b)
  {
    hide SystemStep;
    assert [a, b][1..] == [b] && [b][1..] == [];
    assert SystemRun(SystemStep(s, a), [b]) == SystemRun(SystemStep(SystemStep(s, a), b), []);
  }

  // Two new instances of one definition, which lists neither.
  ghost predicate Rivals(s: System) {
    && NewSettlement(s) && |s.residents| >= 2
    && Races(s.residents[0].cfg, s.hub) && Races(s.residents[1].cfg, s.hub)
    && s.residents[0].cfg.definition == s.residents[1].cfg.definition
  }

  lemma RivalJoins(s: System)
    requires Rivals(s)
    ensures var a, b := s.residents[0].cfg, s.residents[1].cfg;
      var n := Joined(b, s.hub);
      && Rely(a.Me(), s.hub, n) && Rely(b.Me(), s.hub, s.hub)
      && RaceChange(a, s.hub, n) == Nothing && RaceChange(b, s.hub, s.hub) == Join(b.definition, Added(b, s.hub))
      && Apply(b, s.hub, RaceChange(b, s.hub, s.hub)) == n
  {
    var a, b := s.residents[0].cfg, s.residents[1].cfg;
    assert a.Me() != b.Me();
    RelySelf(b.Me(), s.hub);
    var g := Added(b, s.hub);
    assert Owns(b.Me(), g) && !Owns(a.Me(), g);
    OwnAppend(a.Me(), s.hub.appSets[b.definition].generators, [g]);
    assert Own(a.Me(), [g]) == [];
    hide Rely, Own, HasOwn, NewGenerator;
    Coexistence.PutRespects(a.Me(), s.hub, b.definition, s.hub.appSets[b.definition].generators + [g]);
  }

  // What resident `k` still has to do after its two reads.
  ghost predicate HasRead(s: System, k: nat, cfg: Config, c: Call, last: bool) {
    && k < |s.residents| && s.residents[k].cfg == cfg && s.residents[k].work.Busy?
    && s.residents[k].work.calls != [] && s.residents[k].work.calls[0] == c
        && (last ==> s.residents[k].work.calls == [c])
  }

  // It starts its first pass and makes its two reads.
  function Reads(s: System, k: nat, env: Env): seq<SystemEvent> {
    [OfResident(k, Begin(env, true)), OfResident(k, Next), OfResident(k, Next)]
  }

  lemma RunThree(s: System, a: SystemEvent, b: SystemEvent, c: SystemEvent)
    ensures SystemRun(s, [a, b, c]) == SystemStep(SystemStep(SystemStep(s, a), b), c)
  {
    hide SystemStep, SystemRun;
    RunCons(s, a, [b, c]);
    RunTwo(SystemStep(s, a), b, c);
    assert [a] + [b, c] == [a, b, c];
  }

  lemma ReadsThenHasRead(s: System, k: nat, env: Env, n: Server)
    requires k < |s.residents| && CanStart(s.residents[k]) && s.residents[k].stored == Passes.Fresh
        && !s.residents[k].deleting
    requires Races(s.residents[k].cfg, s.hub) && Brings(env, n) && Rely(s.residents[k].cfg.Me(), s.hub, n)
    ensures var t, cfg := SystemRun(s, Reads(s, k, env)), s.residents[k].cfg;
      && t.hub == s.hub && |t.residents| == |s.residents|
      && (forall i | 0 <= i < |s.residents| && i != k :: t.residents[i] == s.residents[i])
      && HasRead(t, k, cfg, Call(UpdateDefinition, n, RaceChange(cfg, s.hub, n)), RaceChange(cfg, s.hub, n).Nothing?)
  {
    hide SystemStep, SystemRun, PassCalls, Rely, RaceChange, Brings;
    var cfg, w := s.residents[k].cfg, s.hub;
    FirstCalls(cfg, env, w, n);
    Begins(s, k, env);
    var s1 := SystemStep(s, OfResident(k, Begin(env, true)));
    var calls := PassCalls(cfg, env, Passes.Fresh, w);
    assert calls[0] == RaceCalls(cfg, w, n)[0] && calls[1] == RaceCalls(cfg, w, n)[1]
      && calls[2] == RaceCalls(cfg, w, n)[2];
    Makes(s1, k, Call(GetTemplate, w, Nothing));
    var s2 := SystemStep(s1, OfResident(k, Next));
    Makes(s2, k, Call(GetDefinition, w, Nothing));
    RunThree(s, OfResident(k, Begin(env, true)), OfResident(k, Next), OfResident(k, Next));
  }

  /** A run in which the calls of two passes alternate: both instances read the definition,
      the second one joins it, and the write of the first, which would have taken the
      second one's generator out again, is refused. */
  lemma LostRace(s: System)
    requires Rivals(s)
    ensures var a, b := s.residents[0].cfg, s.residents[1].cfg;
      var n := Joined(b, s.hub);
      var t := SystemRun(s, Reads(s, 0, RaceEnv(n)) + (Reads(s, 1, RaceEnv(s.hub)) + BOTH_WRITE));
      && t.hub == n && HasOwn(b.Me(), n.appSets[b.definition].generators)
          && !HasOwn(a.Me(), n.appSets[b.definition].generators)
      && |t.residents| == |s.residents| && CanFinish(t.residents[0])
  {
    var a, b := s.residents[0].cfg, s.residents[1].cfg;
    hide SystemRun, Joined, HasOwn, RaceEnv;
    JoinedLists(a, b, s.hub);
    BothWriteInTurn(s);
    RunOn(SystemRun(s, Reads(s, 0, RaceEnv(Joined(b, s.hub)))), Reads(s, 1, RaceEnv(s.hub)), BOTH_WRITE);
    RunOn(s, Reads(s, 0, RaceEnv(Joined(b, s.hub))), Reads(s, 1, RaceEnv(s.hub)) + BOTH_WRITE);
  }

  lemma AreNew(s: System, k: nat)
    requires NewSettlement(s) && k < |s.residents|
    ensures CanStart(s.residents[k]) && s.residents[k].stored == Passes.Fresh && !s.residents[k].deleting
  {
    hide Settlement, ServerOk;
    assert Newborn(s.residents[k].cfg, LifeOf(s, k));
  }

  lemma RivalsAreNew(s: System)
    requires Rivals(s)
    ensures |s.residents| >= 2 && Races(s.residents[0].cfg, s.hub) && Races(s.residents[1].cfg, s.hub)
    ensures s.residents[1].cfg.definition in s.hub.appSets
    ensures forall k | 0 <= k < 2 ::
        CanStart(s.residents[k]) && s.residents[k].stored == Passes.Fresh && !s.residents[k].deleting
  {
    hide NewSettlement, CanStart;
    AreNew(s, 0);
    AreNew(s, 1);
  }

  // After both have read: what either still has to do.
  lemma BothHaveRead(s: System)
    requires Rivals(s)
    ensures var a, b, w := s.residents[0].cfg, s.residents[1].cfg, s.hub;
      var n := Joined(b, w);
      var t := SystemRun(SystemRun(s, Reads(s, 0, RaceEnv(n))), Reads(s, 1, RaceEnv(w)));
      && t.hub == w && |t.residents| == |s.residents|
      && HasRead(t, 0, a, Call(UpdateDefinition, n, Nothing), true)
      && HasRead(t, 1, b, Call(UpdateDefinition, w, RaceChange(b, w, w)), false)
  {
    hide SystemRun, Rely, RaceChange, Brings, Races, RaceEnv, Joined, Rivals, CanStart;
    RivalsAreNew(s);
    var w := s.hub;
    var n := Joined(s.residents[1].cfg, w);
    RivalJoins(s);
    BringsWhat(n);
    BringsWhat(w);
    ReadsThenHasRead(s, 0, RaceEnv(n), n);
    ReadsThenHasRead(SystemRun(s, Reads(s, 0, RaceEnv(n))), 1, RaceEnv(w), w);
  }

  lemma BothWriteInTurn(s: System)
    requires Rivals(s)
    ensures var n := Joined(s.residents[1].cfg, s.hub);
      var t := SystemRun(SystemRun(SystemRun(s, Reads(s, 0, RaceEnv(n))), Reads(s, 1, RaceEnv(s.hub))), BOTH_WRITE);
      t.hub == n && |t.residents| == |s.residents| && CanFinish(t.residents[0])
  {
    var b, w := s.residents[1].cfg, s.hub;
    var n := Joined(b, w);
    RivalJoins(s);
    hide SystemStep, SystemRun, Rely, RaceChange, Races, RaceEnv, Joined, Apply, Rivals;
    BothHaveRead(s);
    var s2 := SystemRun(SystemRun(s, Reads(s, 0, RaceEnv(n))), Reads(s, 1, RaceEnv(w)));
    Makes(s2, 1, Call(UpdateDefinition, w, RaceChange(b, w, w)));
    NothingChanges(s.residents[0].cfg, n);
    Makes(SystemStep(s2, OfResident(1, Next)), 0, Call(UpdateDefinition, n, Nothing));
    RunTwo(s2, OfResident(1, Next), OfResident(0, Next));
  }

  lemma BringsWhat(n: Server)
    ensures Brings(RaceEnv(n), n)
  {}

  lemma NothingChanges(cfg: Config, w: Server)
    ensures Apply(cfg, w, Nothing) == w
  {}

  lemma JoinedLists(a: Config, b: Config, w: Server)
    requires Races(a, w) && Races(b, w) && a.definition == b.definition && a.Me() != b.Me()
    ensures var gens := Joined(b, w).appSets[b.definition].generators; HasOwn(b.Me(), gens) && !HasOwn(a.Me(), gens)
  {
    var gens := w.appSets[b.definition].generators;
    var g := Added(b, w);
    assert Owns(b.Me(), (gens + [g])[|gens|]) && !Owns(a.Me(), g);
  }
}
