/** The ApplicationSets as a versioned store that many workers read, edit and write back. */
module SharedAppSets {
  import opened Generators

  // Workers act for any instance or for the template reconciler, in any interleaving. Each
  // edits its own copy and writes the whole copy back; the server refuses a write whose
  // version is no longer current. A request may be refused, or be carried out with its
  // answer lost; either way the worker gives up its copy.

  type Worker = nat

  datatype Edit =
    | Join(key: Key, template: GeneratorTemplate)   // UpdateApplicationSet
    | Leave(key: Key)                               // DeleteDay1Application, DeleteDay2Application
    | Retemplate(newTemplate: Template)             // the hypershift template reconciler

  datatype Snapshot = Snapshot(name: string, copy: AppSet)

  datatype State = State(rv: nat, sets: map<string, AppSet>, held: map<Worker, Snapshot>)

  datatype Action =
    | Get(worker: Worker, name: string)
    | Put(worker: Worker, edit: Edit, applied: bool, answered: bool)
    | CreateSet(name: string, template: Template)
    | RemoveSet(name: string)
    | Abandon(worker: Worker)

  function Edited(e: Edit, gens: seq<Generator>): seq<Generator> {
    match e
    case Join(k, t) => WithGenerator(k, gens, List(k.name, k.namespace, t))
    case Leave(k) => Without(k, gens)
    case Retemplate(_) => gens
  }

  function EditedTemplate(e: Edit, t: Template): Template {
    if e.Retemplate? then e.newTemplate else t
  }

  // UpdateApplicationSet returns without a request when the instance is already listed.
  predicate NoRequest(e: Edit, gens: seq<Generator>) {
    e.Join? && HasOwn(e.key, gens)
  }

  predicate Current(s: State, h: Snapshot) {
    h.name in s.sets && s.sets[h.name].version == h.copy.version
  }

  function Step(s: State, a: Action): State {
    match a
    case Get(w, n) =>
      if n in s.sets then s.(held := s.held[w := Snapshot(n, s.sets[n])]) else s.(held := s.held - {w})
    case Put(w, e, applied, answered) =>
      if w !in s.held || NoRequest(e, s.held[w].copy.generators) then s
      else if !applied || !Current(s, s.held[w]) then s.(held := s.held - {w})
      else
        var h := s.held[w];
        var written := AppSet(s.rv + 1, EditedTemplate(e, h.copy.template), Edited(e, h.copy.generators));
        State(s.rv + 1, s.sets[h.name := written],
              if answered then s.held[w := Snapshot(h.name, written)] else s.held - {w})
    case CreateSet(n, t) =>
      if n in s.sets then s else State(s.rv + 1, s.sets[n := AppSet(s.rv + 1, t, [Opaque(0)])], s.held)
    case RemoveSet(n) => s.(sets := s.sets - {n})
    case Abandon(w) => s.(held := s.held - {w})
  }

  function Run(s: State, actions: seq<Action>): State
    decreases |actions|
  {
    if actions == [] then s else Run(Step(s, actions[0]), actions[1..])
  }

  // A copy whose version is the stored one is the stored set.
  ghost predicate Coherent(s: State) {
    && (forall n | n in s.sets :: s.sets[n].version <= s.rv)
    && (forall w | w in s.held :: s.held[w].copy.version <= s.rv)
    && (forall w | w in s.held && Current(s, s.held[w]) :: s.held[w].copy == s.sets[s.held[w].name])
  }

  ghost predicate AllUnique(s: State) {
    forall n | n in s.sets :: Unique(s.sets[n].generators)
  }

  lemma StepCoherent(s: State, a: Action)
    requires Coherent(s)
    ensures Coherent(Step(s, a))
  {}

  lemma EditKeepsUnique(e: Edit, gens: seq<Generator>)
    requires Unique(gens)
    ensures Unique(Edited(e, gens))
  {
    if e.Leave? {
      UniqueSurvivesRemoval(e.key, gens);
    }
  }

  lemma StepUnique(s: State, a: Action)
    requires Coherent(s) && AllUnique(s)
    ensures AllUnique(Step(s, a))
  {
    if a.Put? && a.worker in s.held && Current(s, s.held[a.worker]) {
      EditKeepsUnique(a.edit, s.held[a.worker].copy.generators);
    }
  }

  /** However the workers interleave, retry, lose requests or act twice for the same
      instance, every stored set keeps at most one generator per instance. */
  lemma {:induction false} AtMostOneGeneratorPerInstance(s: State, actions: seq<Action>)
    requires Coherent(s) && AllUnique(s)
    ensures Coherent(Run(s, actions)) && AllUnique(Run(s, actions))
    decreases |actions|
  {
    if actions != [] {
      StepCoherent(s, actions[0]);
      StepUnique(s, actions[0]);
      AtMostOneGeneratorPerInstance(Step(s, actions[0]), actions[1..]);
    }
  }

  // -------- generators nobody acts for --------

  predicate Bystander(keys: set<Key>, g: Generator) {
    g.List? ==> Key(g.nameLabel, g.namespaceLabel) !in keys
  }

  // The generators of other instances and the non-list ones, in order.
  function Bystanders(keys: set<Key>, gens: seq<Generator>): seq<Generator> {
    if gens == [] then []
    else (if Bystander(keys, gens[0]) then [gens[0]] else []) + Bystanders(keys, gens[1..])
  }

  function Actor(a: Action): set<Key> {
    if a.Put? && !a.edit.Retemplate? then {a.edit.key} else {}
  }

  function Actors(actions: seq<Action>): set<Key> {
    if actions == [] then {} else Actor(actions[0]) + Actors(actions[1..])
  }

  lemma {:induction false} BystandersAppend(keys: set<Key>, a: seq<Generator>, b: seq<Generator>)
    ensures Bystanders(keys, a + b) == Bystanders(keys, a) + Bystanders(keys, b)
  {
    if a == [] {
      assert a + b == b;
    } else {
      var ab, h := a + b, if Bystander(keys, a[0]) then [a[0]] else [];
      assert ab[0] == a[0] && ab[1..] == a[1..] + b;
      assert Bystanders(keys, ab) == h + Bystanders(keys, ab[1..]);
      BystandersAppend(keys, a[1..], b);
    }
  }

  lemma {:induction false} BystandersOfRest(keys: set<Key>, k: Key, gens: seq<Generator>)
    requires k in keys
    ensures Bystanders(keys, Without(k, gens)) == Bystanders(keys, gens)
  {
    if gens != [] {
      BystandersOfRest(keys, k, gens[1..]);
      BystandersAppend(keys, if Owns(k, gens[0]) then [] else [gens[0]], Without(k, gens[1..]));
    }
  }

  lemma EditKeepsBystanders(keys: set<Key>, e: Edit, gens: seq<Generator>)
    requires e.Retemplate? || e.key in keys
    ensures Bystanders(keys, Edited(e, gens)) == Bystanders(keys, gens)
  {
    match e
    case Join(k, t) =>
      var g := List(k.name, k.namespace, t);
      BystandersAppend(keys, gens, [g]);
      assert Bystanders(keys, [g]) == [];
    case Leave(k) => BystandersOfRest(keys, k, gens);
    case Retemplate(_) =>
  }

  /** Over a whole run that does not remove the set, the generators of every instance
      nobody acted for, and all non-list generators, are the same and in the same order. */
  lemma {:induction false} BystandersUntouched(s: State, actions: seq<Action>, keys: set<Key>, n: string)
    requires Coherent(s) && n in s.sets
    requires Actors(actions) <= keys
    requires forall a | a in actions :: a != RemoveSet(n)
    ensures n in Run(s, actions).sets
    ensures Bystanders(keys, Run(s, actions).sets[n].generators) == Bystanders(keys, s.sets[n].generators)
    decreases |actions|
  {
    if actions != [] {
      var a := actions[0];
      assert a in actions;
      StepCoherent(s, a);
      if a.Put? && a.worker in s.held {
        EditKeepsBystanders(keys, a.edit, s.held[a.worker].copy.generators);
      }
      assert forall b | b in actions[1..] :: b in actions;
      BystandersUntouched(Step(s, a), actions[1..], keys, n);
    }
  }

  // -------- a world without one instance --------

  predicate ActsFor(k: Key, a: Action) {
    a.Put? && !a.edit.Retemplate? && a.edit.key == k
  }

  // What the action comes to where instance `k` does not exist: an edit of `k` leaves
  // nothing behind but, when it fails, a worker without a copy; and a write of another
  // worker that conflicts here is one that is not carried out there.
  function Erased(k: Key, s: State, a: Action): seq<Action> {
    if !a.Put? || a.worker !in s.held then if ActsFor(k, a) then [] else [a]
    else if !ActsFor(k, a) then [a.(applied := a.applied && Current(s, s.held[a.worker]))]
    else if NoRequest(a.edit, s.held[a.worker].copy.generators) then []
    else if a.applied && a.answered && Current(s, s.held[a.worker]) then []
    else [Abandon(a.worker)]
  }

  function ErasedRun(k: Key, s: State, actions: seq<Action>): seq<Action>
    decreases |actions|
  {
    if actions == [] then [] else Erased(k, s, actions[0]) + ErasedRun(k, Step(s, actions[0]), actions[1..])
  }

  // The stored sets of `t` are those of `s` without the generators of `k`.
  ghost predicate SetsLack(k: Key, s: State, t: State) {
    s.sets.Keys == t.sets.Keys &&
    forall n | n in s.sets ::
      && t.sets[n].generators == Without(k, s.sets[n].generators)
      && t.sets[n].template == s.sets[n].template
  }

  // So is the copy that worker `w` holds, and it is no staler.
  ghost predicate CopyLacks(k: Key, s: State, t: State, w: Worker)
    requires w in s.held && w in t.held
  {
    && t.held[w].name == s.held[w].name
    && t.held[w].copy.generators == Without(k, s.held[w].copy.generators)
    && t.held[w].copy.template == s.held[w].copy.template
    && (Current(s, s.held[w]) ==> Current(t, t.held[w]))
  }

  // `t` is `s` as it would look without `k`.
  ghost predicate LacksOnly(k: Key, s: State, t: State) {
    SetsLack(k, s, t) && s.held.Keys == t.held.Keys && forall w | w in s.held :: CopyLacks(k, s, t, w)
  }

  lemma EditWithout(k: Key, e: Edit, gens: seq<Generator>)
    requires e.Retemplate? || e.key != k
    ensures Edited(e, Without(k, gens)) == Without(k, Edited(e, gens))
    ensures NoRequest(e, Without(k, gens)) <==> NoRequest(e, gens)
  {
    match e
    case Join(j, t) =>
      OwnUnaffectedByOthers(k, j, gens);
      WithoutAppend(k, gens, [List(j.name, j.namespace, t)]);
    case Leave(j) => WithoutCommutes(j, k, gens);
    case Retemplate(_) =>
  }

  lemma OwnEditWithout(k: Key, e: Edit, gens: seq<Generator>)
    requires !e.Retemplate? && e.key == k
    ensures Without(k, Edited(e, gens)) == Without(k, gens)
  {
    if e.Join? {
      WithoutAppend(k, gens, [List(k.name, k.namespace, e.template)]);
    } else {
      WithoutIsIdentity(k, Without(k, gens));
    }
  }

  lemma StepErasedGet(k: Key, s: State, t: State, w: Worker, n: string)
    requires LacksOnly(k, s, t)
    ensures LacksOnly(k, Step(s, Get(w, n)), Step(t, Get(w, n)))
  {
    hide Without, HasOwn, Edited;
    var s', t' := Step(s, Get(w, n)), Step(t, Get(w, n));
    assert SetsLack(k, s', t');
    forall v | v in s'.held ensures CopyLacks(k, s', t', v) {
      assert v != w ==> CopyLacks(k, s, t, v);
    }
  }

  lemma StepErasedAbandon(k: Key, s: State, t: State, w: Worker)
    requires LacksOnly(k, s, t)
    ensures LacksOnly(k, Step(s, Abandon(w)), Step(t, Abandon(w)))
  {
    hide Without, HasOwn, Edited;
    var s', t' := Step(s, Abandon(w)), Step(t, Abandon(w));
    assert SetsLack(k, s', t');
    forall v | v in s'.held ensures CopyLacks(k, s', t', v) {
      assert CopyLacks(k, s, t, v);
    }
  }

  lemma StepErasedStore(k: Key, s: State, t: State, a: Action)
    requires Coherent(s) && Coherent(t) && LacksOnly(k, s, t)
    requires a.CreateSet? || a.RemoveSet?
    ensures LacksOnly(k, Step(s, a), Step(t, a))
  {
    assert Without(k, [Opaque(0)]) == [Opaque(0)];
    hide Without, HasOwn, Edited;
    var s', t' := Step(s, a), Step(t, a);
    forall w | w in s'.held ensures CopyLacks(k, s', t', w) {
      assert CopyLacks(k, s, t, w);
    }
  }

  lemma StepErasedOwn(k: Key, s: State, t: State, a: Action)
    requires Coherent(s) && Coherent(t) && LacksOnly(k, s, t)
    requires ActsFor(k, a) && a.worker in s.held && a.applied && a.answered && Current(s, s.held[a.worker])
    ensures LacksOnly(k, Step(s, a), t)
  {
    hide Without, HasOwn, Edited;
    var s' := Step(s, a);
    var h := s.held[a.worker];
    OwnEditWithout(k, a.edit, h.copy.generators);
    assert s.sets[h.name] == h.copy;
    assert SetsLack(k, s', t);
    forall w | w in s'.held ensures CopyLacks(k, s', t, w) {
      assert CopyLacks(k, s, t, w);
    }
  }

  // A write whose answer is lost is an answered one after which the worker gives up.
  lemma UnansweredIsAbandoned(s: State, a: Action)
    requires a.Put? && a.worker in s.held && a.applied && Current(s, s.held[a.worker])
    requires !NoRequest(a.edit, s.held[a.worker].copy.generators)
    ensures Step(s, a.(answered := false)) == Step(Step(s, a.(answered := true)), Abandon(a.worker))
  {
    var x, y := Step(s, a.(answered := false)), Step(Step(s, a.(answered := true)), Abandon(a.worker));
    assert x.held == y.held;
  }

  lemma StepErasedOwnUnanswered(k: Key, s: State, t: State, a: Action)
    requires Coherent(s) && Coherent(t) && LacksOnly(k, s, t)
    requires ActsFor(k, a) && a.worker in s.held && a.applied && !a.answered && Current(s, s.held[a.worker])
    ensures LacksOnly(k, Step(s, a), Run(t, Erased(k, s, a)))
  {
    if !NoRequest(a.edit, s.held[a.worker].copy.generators) {
      var b := a.(answered := true);
      StepErasedOwn(k, s, t, b);
      UnansweredIsAbandoned(s, a);
      StepErasedAbandon(k, Step(s, b), t, a.worker);
      assert Run(t, [Abandon(a.worker)]) == Run(Step(t, Abandon(a.worker)), []);
    }
  }

  // Both worlds store the same write, with and without the generators of `k`.
  lemma BothWrite(k: Key, s: State, t: State, n: string, x: AppSet, y: AppSet, w: Worker, answered: bool)
    requires Coherent(s) && Coherent(t) && LacksOnly(k, s, t) && w in s.held && n in s.sets
    requires x.version == s.rv + 1 && y.version == t.rv + 1
    requires y.generators == Without(k, x.generators) && y.template == x.template
    ensures
      var s' := State(s.rv + 1, s.sets[n := x], if answered then s.held[w := Snapshot(n, x)] else s.held - {w});
      var t' := State(t.rv + 1, t.sets[n := y], if answered then t.held[w := Snapshot(n, y)] else t.held - {w});
      LacksOnly(k, s', t')
  {
    hide Without;
    var s' := State(s.rv + 1, s.sets[n := x], if answered then s.held[w := Snapshot(n, x)] else s.held - {w});
    var t' := State(t.rv + 1, t.sets[n := y], if answered then t.held[w := Snapshot(n, y)] else t.held - {w});
    forall v | v in s'.held ensures CopyLacks(k, s', t', v) {
      assert CopyLacks(k, s, t, v);
    }
  }

  lemma StepErasedOther(k: Key, s: State, t: State, a: Action)
    requires Coherent(s) && Coherent(t) && LacksOnly(k, s, t)
    requires a.Put? && !ActsFor(k, a) && a.worker in s.held && a.applied && Current(s, s.held[a.worker])
    ensures LacksOnly(k, Step(s, a), Step(t, a))
  {
    hide Without, HasOwn, Edited;
    var h, g := s.held[a.worker], t.held[a.worker];
    assert CopyLacks(k, s, t, a.worker);
    EditWithout(k, a.edit, h.copy.generators);
    BothWrite(k, s, t, h.name,
      AppSet(s.rv + 1, EditedTemplate(a.edit, h.copy.template), Edited(a.edit, h.copy.generators)),
      AppSet(t.rv + 1, EditedTemplate(a.edit, g.copy.template), Edited(a.edit, g.copy.generators)),
      a.worker, a.answered);
  }

  lemma StepErasedRefused(k: Key, s: State, t: State, a: Action)
    requires Coherent(s) && Coherent(t) && LacksOnly(k, s, t)
    requires a.Put? && a.worker in s.held && !(a.applied && Current(s, s.held[a.worker]))
    ensures LacksOnly(k, Step(s, a), Run(t, Erased(k, s, a)))
  {
    hide Without, HasOwn, Edited;
    if !ActsFor(k, a) {
      EditWithout(k, a.edit, s.held[a.worker].copy.generators);
    }
  }

  lemma {:induction false} RunCoherent(s: State, actions: seq<Action>)
    requires Coherent(s)
    ensures Coherent(Run(s, actions))
    decreases |actions|
  {
    if actions != [] {
      StepCoherent(s, actions[0]);
      RunCoherent(Step(s, actions[0]), actions[1..]);
    }
  }

  lemma StepErased(k: Key, s: State, t: State, a: Action)
    requires Coherent(s) && Coherent(t) && LacksOnly(k, s, t)
    ensures LacksOnly(k, Step(s, a), Run(t, Erased(k, s, a)))
  {
    if a.Get? {
      StepErasedGet(k, s, t, a.worker, a.name);
    } else if a.Abandon? {
      StepErasedAbandon(k, s, t, a.worker);
    } else if a.CreateSet? || a.RemoveSet? {
      StepErasedStore(k, s, t, a);
    } else if a.worker in s.held {
      if !(a.applied && Current(s, s.held[a.worker])) {
        StepErasedRefused(k, s, t, a);
      } else if ActsFor(k, a) && a.answered {
        StepErasedOwn(k, s, t, a);
      } else if ActsFor(k, a) {
        StepErasedOwnUnanswered(k, s, t, a);
      } else {
        StepErasedOther(k, s, t, a);
      }
    }
  }

  lemma {:induction false} RunAppend(s: State, a: seq<Action>, b: seq<Action>)
    ensures Run(s, a + b) == Run(Run(s, a), b)
    decreases |a|
  {
    if a == [] {
      assert a + b == b;
    } else {
      assert (a + b)[1..] == a[1..] + b;
      RunAppend(Step(s, a[0]), a[1..], b);
    }
  }

  lemma {:induction false} RunErased(k: Key, s: State, t: State, actions: seq<Action>)
    requires Coherent(s) && Coherent(t) && LacksOnly(k, s, t)
    ensures LacksOnly(k, Run(s, actions), Run(t, ErasedRun(k, s, actions)))
    ensures forall a | a in ErasedRun(k, s, actions) :: !ActsFor(k, a)
    decreases |actions|
  {
    if actions != [] {
      var now, later := Erased(k, s, actions[0]), ErasedRun(k, Step(s, actions[0]), actions[1..]);
      StepErased(k, s, t, actions[0]);
      StepCoherent(s, actions[0]);
      RunCoherent(t, now);
      RunErased(k, Step(s, actions[0]), Run(t, now), actions[1..]);
      RunAppend(t, now, later);
    }
  }

  /** Non-interference: take any run of the system that starts without instance `k`.
      The same run with every step of `k` left out is a run of the system, and wherever
      `k` has no generator left the two end with the very same list. */
  lemma AsIfNeverThere(k: Key, s: State, actions: seq<Action>, n: string)
    requires Coherent(s) && s.held == map[]
    requires forall m | m in s.sets :: !HasOwn(k, s.sets[m].generators)
    ensures forall a | a in ErasedRun(k, s, actions) :: !ActsFor(k, a)
    ensures n in Run(s, actions).sets <==> n in Run(s, ErasedRun(k, s, actions)).sets
    ensures n in Run(s, actions).sets && !HasOwn(k, Run(s, actions).sets[n].generators) ==>
              Run(s, actions).sets[n].generators == Run(s, ErasedRun(k, s, actions)).sets[n].generators
  {
    forall m | m in s.sets ensures Without(k, s.sets[m].generators) == s.sets[m].generators {
      WithoutIsIdentity(k, s.sets[m].generators);
    }
    RunErased(k, s, s, actions);
    if n in Run(s, actions).sets {
      WithoutIsIdentity(k, Run(s, actions).sets[n].generators);
    }
  }
}
