/** The shared generator list of an Argo CD ApplicationSet, and an instance's Helm parameters. */
module Generators {

  datatype Key = Key(name: string, namespace: string)

  datatype Finalizer = ResourcesFinalizer | CustomFinalizer(id: string)

  datatype HelmParameter = HelmParameter(name: string, value: string)

  // A parameter of the instance; an empty `appSet` means "the cluster definition".
  datatype Parameter = Parameter(name: string, value: string, appSet: string)

  datatype Instance = Instance(key: Key, uid: string, parameters: seq<Parameter>)

  // What the generator of one instance overrides in the ApplicationSet's template.
  datatype GeneratorTemplate = GeneratorTemplate(
    name: string,
    setupLabel: bool,
    server: string,
    instanceNamespace: string,
    finalizers: seq<Finalizer>,
    helm: seq<HelmParameter>)

  // A generator whose `List` is nil is Opaque. An absent label reads as "".
  datatype Generator =
    | Opaque(id: nat)
    | List(nameLabel: string, namespaceLabel: string, template: GeneratorTemplate)

  // The ApplicationSet's own template; an empty `chart` means it is not a Helm chart.
  datatype Template = Template(finalizers: seq<Finalizer>, chart: string, helm: seq<HelmParameter>)

  datatype AppSet = AppSet(version: nat, template: Template, generators: seq<Generator>)

  predicate Owns(k: Key, g: Generator) {
    g.List? && g.nameLabel == k.name && g.namespaceLabel == k.namespace
  }

  predicate HasOwn(k: Key, gens: seq<Generator>) {
    exists i | 0 <= i < |gens| :: Owns(k, gens[i])
  }

  // The list with every generator of `k` taken out, the rest in order.
  function Without(k: Key, gens: seq<Generator>): (r: seq<Generator>)
    ensures !HasOwn(k, r)
    ensures |r| <= |gens|
  {
    if gens == [] then []
    else (if Owns(k, gens[0]) then [] else [gens[0]]) + Without(k, gens[1..])
  }

  // The generators of `k` alone, in order.
  function Own(k: Key, gens: seq<Generator>): (r: seq<Generator>)
    ensures r == [] <==> !HasOwn(k, gens)
  {
    if gens == [] then []
    else (if Owns(k, gens[0]) then [gens[0]] else []) + Own(k, gens[1..])
  }

  function WithGenerator(k: Key, gens: seq<Generator>, g: Generator): seq<Generator> {
    if HasOwn(k, gens) then gens else gens + [g]
  }

  predicate Unique(gens: seq<Generator>) {
    forall i, j | 0 <= i < j < |gens| && gens[i].List? && gens[j].List? ::
      gens[i].nameLabel != gens[j].nameLabel || gens[i].namespaceLabel != gens[j].namespaceLabel
  }

  // -------- list lemmas --------

  lemma {:induction false} WithoutAppend(k: Key, a: seq<Generator>, b: seq<Generator>)
    ensures Without(k, a + b) == Without(k, a) + Without(k, b)
  {
    if a == [] {
      assert a + b == b;
    } else {
      assert (a + b)[1..] == a[1..] + b;
      WithoutAppend(k, a[1..], b);
    }
  }

  lemma {:induction false} OwnAppend(k: Key, a: seq<Generator>, b: seq<Generator>)
    ensures Own(k, a + b) == Own(k, a) + Own(k, b)
  {
    if a == [] {
      assert a + b == b;
    } else {
      assert (a + b)[1..] == a[1..] + b;
      OwnAppend(k, a[1..], b);
    }
  }

  lemma {:induction false} WithoutIsIdentity(k: Key, gens: seq<Generator>)
    ensures Without(k, gens) == gens <==> !HasOwn(k, gens)
  {
    if gens != [] {
      WithoutIsIdentity(k, gens[1..]);
      if !Owns(k, gens[0]) {
        assert gens == [gens[0]] + gens[1..];
        if HasOwn(k, gens[1..]) {
          var i :| 0 <= i < |gens[1..]| && Owns(k, gens[1..][i]);
          assert Owns(k, gens[i + 1]);
        }
      }
    }
  }

  lemma {:induction false} WithoutMembers(k: Key, gens: seq<Generator>)
    ensures forall g :: g in Without(k, gens) <==> g in gens && !Owns(k, g)
  {
    if gens != [] {
      WithoutMembers(k, gens[1..]);
    }
  }

  lemma {:induction false} WithoutCommutes(j: Key, k: Key, gens: seq<Generator>)
    ensures Without(j, Without(k, gens)) == Without(k, Without(j, gens))
  {
    if gens != [] {
      var g, rest := gens[0], gens[1..];
      WithoutCommutes(j, k, rest);
      var hk, hj := if Owns(k, g) then [] else [g], if Owns(j, g) then [] else [g];
      WithoutAppend(j, hk, Without(k, rest));
      WithoutAppend(k, hj, Without(j, rest));
    }
  }

  lemma {:induction false} OwnUnaffectedByOthers(j: Key, k: Key, gens: seq<Generator>)
    requires j != k
    ensures Own(k, Without(j, gens)) == Own(k, gens)
    ensures HasOwn(k, Without(j, gens)) <==> HasOwn(k, gens)
  {
    if gens != [] {
      OwnUnaffectedByOthers(j, k, gens[1..]);
      OwnAppend(k, if Owns(j, gens[0]) then [] else [gens[0]], Without(j, gens[1..]));
      assert Own(k, [gens[0]]) == if Owns(k, gens[0]) then [gens[0]] else [];
    }
  }

  lemma {:induction false} UniqueSurvivesRemoval(k: Key, gens: seq<Generator>)
    requires Unique(gens)
    ensures Unique(Without(k, gens))
  {
    if gens != [] {
      UniqueSurvivesRemoval(k, gens[1..]);
      WithoutMembers(k, gens[1..]);
      var r := Without(k, gens[1..]);
      forall i | 0 <= i < |r| && r[i].List? && gens[0].List?
        ensures gens[0].nameLabel != r[i].nameLabel || gens[0].namespaceLabel != r[i].namespaceLabel
      {
        assert r[i] in gens[1..];
        var j :| 0 <= j < |gens[1..]| && gens[1..][j] == r[i];
        assert gens[j + 1] == r[i];
      }
    }
  }

  lemma {:induction false} UniqueMeansAtMostOne(k: Key, gens: seq<Generator>)
    requires Unique(gens)
    ensures |Own(k, gens)| <= 1
  {
    if gens != [] {
      UniqueMeansAtMostOne(k, gens[1..]);
      if Owns(k, gens[0]) {
        assert !HasOwn(k, gens[1..]);
      }
    }
  }

  lemma TwoOwned(k: Key, gens: seq<Generator>, i: nat, j: nat)
    requires i < j < |gens| && Owns(k, gens[i]) && Owns(k, gens[j])
    ensures |Own(k, gens)| >= 2
  {
    var a, b := gens[..j], gens[j..];
    assert gens == a + b;
    OwnAppend(k, a, b);
    assert Owns(k, a[i]) && Owns(k, b[0]);
  }

  ghost predicate AtMostOneEach(gens: seq<Generator>) {
    forall k :: |Own(k, gens)| <= 1
  }

  /** Unique says what the two label tests of the source mean together: no instance
      has two generators in the list. */
  lemma UniqueIffAtMostOneEach(gens: seq<Generator>)
    ensures Unique(gens) <==> AtMostOneEach(gens)
  {
    if Unique(gens) {
      forall k ensures |Own(k, gens)| <= 1 { UniqueMeansAtMostOne(k, gens); }
    } else {
      var i, j :| 0 <= i < j < |gens| && gens[i].List? && gens[j].List?
        && gens[i].nameLabel == gens[j].nameLabel && gens[i].namespaceLabel == gens[j].namespaceLabel;
      TwoOwned(Key(gens[i].nameLabel, gens[i].namespaceLabel), gens, i, j);
    }
  }

  // -------- loops over the list --------

  /** The look-before-append search of UpdateApplicationSet. */
  method FindOwn(k: Key, gens: seq<Generator>) returns (found: bool)
    ensures found <==> HasOwn(k, gens)
  {
    for i := 0 to |gens|
      invariant !HasOwn(k, gens[..i])
    {
      if Owns(k, gens[i]) {
        return true;
      }
    }
    assert gens[..|gens|] == gens;
    found := false;
  }

  /** The filtering loop that both delete functions run. */
  method DropOwn(k: Key, gens: seq<Generator>) returns (kept: seq<Generator>)
    ensures kept == Without(k, gens)
  {
    kept := [];
    for i := 0 to |gens|
      invariant kept == Without(k, gens[..i])
    {
      assert gens[..i + 1] == gens[..i] + [gens[i]];
      WithoutAppend(k, gens[..i], [gens[i]]);
      if !Owns(k, gens[i]) {
        kept := kept + [gens[i]];
      }
    }
    assert gens[..|gens|] == gens;
  }

  // -------- Helm parameters --------

  predicate Applies(p: Parameter, appSet: string, isDay2: bool) {
    (!isDay2 && p.appSet == "") || p.appSet == appSet
  }

  predicate Defines(params: seq<HelmParameter>, name: string) {
    exists i | 0 <= i < |params| :: params[i].name == name
  }

  // First value of `name`, as Helm reads the list of distinct names.
  function Lookup(params: seq<HelmParameter>, name: string): (r: seq<string>)
    ensures |r| <= 1
    ensures r == [] <==> !Defines(params, name)
  {
    if params == [] then []
    else if params[0].name == name then [params[0].value]
    else Lookup(params[1..], name)
  }

  // First value the instance itself gives to `name` for this ApplicationSet.
  function FirstApplicable(ps: seq<Parameter>, appSet: string, isDay2: bool, name: string): seq<string> {
    if ps == [] then []
    else if Applies(ps[0], appSet, isDay2) && ps[0].name == name then [ps[0].value]
    else FirstApplicable(ps[1..], appSet, isDay2, name)
  }

  predicate DistinctNames(params: seq<HelmParameter>) {
    forall i, j | 0 <= i < j < |params| :: params[i].name != params[j].name
  }

  lemma {:induction false} LookupAppend(a: seq<HelmParameter>, b: seq<HelmParameter>, name: string)
    ensures Lookup(a + b, name) == if Defines(a, name) then Lookup(a, name) else Lookup(b, name)
  {
    if a == [] {
      assert a + b == b;
    } else {
      assert (a + b)[1..] == a[1..] + b;
      LookupAppend(a[1..], b, name);
      if a[0].name != name && Defines(a, name) {
        var i :| 0 <= i < |a| && a[i].name == name;
        assert a[1..][i - 1].name == name;
      }
    }
  }

  lemma {:induction false} FirstApplicableSnoc(ps: seq<Parameter>, p: Parameter, appSet: string, isDay2: bool,
      name: string)
    ensures FirstApplicable(ps + [p], appSet, isDay2, name) ==
            if FirstApplicable(ps, appSet, isDay2, name) != [] then FirstApplicable(ps, appSet, isDay2, name)
            else if Applies(p, appSet, isDay2) && p.name == name then [p.value] else []
  {
    if ps == [] {
      assert ps + [p] == [p];
    } else {
      assert (ps + [p])[1..] == ps[1..] + [p];
      FirstApplicableSnoc(ps[1..], p, appSet, isDay2, name);
    }
  }

  // What `params` may be after merging the instance parameters `ps` into `template`.
  ghost predicate Merged(template: seq<HelmParameter>, ps: seq<Parameter>, appSet: string, isDay2: bool,
      params: seq<HelmParameter>) {
    && |template| <= |params| && params[..|template|] == template
    && DistinctNames(params[|template|..])
    && (forall i | |template| <= i < |params| :: !Defines(template, params[i].name))
    && (forall n {:trigger Lookup(params, n)} ::
          Lookup(params, n) == if Defines(template, n) then Lookup(template, n)
            else FirstApplicable(ps, appSet, isDay2, n))
  }

  lemma MergeSkip(template: seq<HelmParameter>, ps: seq<Parameter>, p: Parameter, appSet: string, isDay2: bool,
      params: seq<HelmParameter>)
    requires Merged(template, ps, appSet, isDay2, params)
    requires !Applies(p, appSet, isDay2) || Defines(params, p.name)
    ensures Merged(template, ps + [p], appSet, isDay2, params)
  {
    forall n
      ensures Lookup(params, n) == if Defines(template, n) then Lookup(template, n)
          else FirstApplicable(ps + [p], appSet, isDay2, n)
    {
      FirstApplicableSnoc(ps, p, appSet, isDay2, n);
      assert Lookup(params, n) == if Defines(template, n) then Lookup(template, n)
        else FirstApplicable(ps, appSet, isDay2, n);
    }
  }

  lemma AppendedLookup(template: seq<HelmParameter>, ps: seq<Parameter>, p: Parameter, appSet: string, isDay2: bool,
      params: seq<HelmParameter>, n: string)
    requires Merged(template, ps, appSet, isDay2, params)
    requires Applies(p, appSet, isDay2) && !Defines(params, p.name) && (Defines(template, n) ==> Defines(params, n))
    ensures Lookup(params + [HelmParameter(p.name, p.value)], n) ==
      if Defines(template, n) then Lookup(template, n) else FirstApplicable(ps + [p], appSet, isDay2, n)
  {
    var q := [HelmParameter(p.name, p.value)];
    assert Lookup(q, n) == if n == p.name then [p.value] else [];
    assert Lookup(params, n) == if Defines(template, n) then Lookup(template, n)
      else FirstApplicable(ps, appSet, isDay2, n);
    hide Lookup, FirstApplicable, Merged;
    FirstApplicableSnoc(ps, p, appSet, isDay2, n);
    LookupAppend(params, q, n);
  }

  lemma MergeAppend(template: seq<HelmParameter>, ps: seq<Parameter>, p: Parameter, appSet: string, isDay2: bool,
      params: seq<HelmParameter>)
    requires Merged(template, ps, appSet, isDay2, params)
    requires Applies(p, appSet, isDay2) && !Defines(params, p.name)
    ensures Merged(template, ps + [p], appSet, isDay2, params + [HelmParameter(p.name, p.value)])
  {
    hide FirstApplicable, Lookup;
    var r := params + [HelmParameter(p.name, p.value)];
    assert r[..|template|] == template;
    assert r[|template|..] == params[|template|..] + [HelmParameter(p.name, p.value)];
    assert forall i | 0 <= i < |params| :: params[i].name != p.name;
    assert forall i | 0 <= i < |template| :: template[i] == params[i];
    forall n
      ensures Lookup(r, n) == if Defines(template, n) then Lookup(template, n)
          else FirstApplicable(ps + [p], appSet, isDay2, n)
    {
      AppendedLookup(template, ps, p, appSet, isDay2, params, n);
    }
  }

  function MergeParams(params: seq<HelmParameter>, ps: seq<Parameter>, appSet: string, isDay2: bool): seq<HelmParameter>
    decreases |ps|
  {
    if ps == [] then params
    else
      var next := if Applies(ps[0], appSet, isDay2) && !Defines(params, ps[0].name)
                  then params + [HelmParameter(ps[0].name, ps[0].value)] else params;
      MergeParams(next, ps[1..], appSet, isDay2)
  }

  lemma {:induction false} MergeContinues(template: seq<HelmParameter>, done: seq<Parameter>, ps: seq<Parameter>,
      appSet: string, isDay2: bool, params: seq<HelmParameter>)
    requires Merged(template, done, appSet, isDay2, params)
    ensures Merged(template, done + ps, appSet, isDay2, MergeParams(params, ps, appSet, isDay2))
    decreases |ps|
  {
    if ps == [] {
      assert done + ps == done;
    } else {
      var p := ps[0];
      assert done + ps == (done + [p]) + ps[1..];
      if Applies(p, appSet, isDay2) && !Defines(params, p.name) {
        MergeAppend(template, done, p, appSet, isDay2, params);
        MergeContinues(template, done + [p], ps[1..], appSet, isDay2, params + [HelmParameter(p.name, p.value)]);
      } else {
        MergeSkip(template, done, p, appSet, isDay2, params);
        MergeContinues(template, done + [p], ps[1..], appSet, isDay2, params);
      }
    }
  }

  /** The merge of GetHelmParameters: the template's parameters stay as an unchanged
      prefix, what is appended has distinct new names, and every name reads as the
      template's value if the template has one, else as the instance's first applicable
      value. */
  lemma MergeIsRight(template: seq<HelmParameter>, ps: seq<Parameter>, appSet: string, isDay2: bool)
    ensures Merged(template, ps, appSet, isDay2, MergeParams(template, ps, appSet, isDay2))
  {
    assert [] + ps == ps;
    MergeContinues(template, [], ps, appSet, isDay2, template);
  }

  // Parameter `k` is meant for this ApplicationSet: it names it, or it names none and the
  // set is the cluster definition.
  predicate MeantFor(ps: seq<Parameter>, k: nat, appSet: string, isDay2: bool)
    requires k < |ps|
  {
    if ps[k].appSet == "" && !isDay2 then true else ps[k].appSet == appSet
  }

  // The first of the instance's parameters of its name that is meant for the set.
  predicate FirstMeant(ps: seq<Parameter>, k: nat, appSet: string, isDay2: bool) {
    && k < |ps| && MeantFor(ps, k, appSet, isDay2)
    && forall i | 0 <= i < k && ps[i].name == ps[k].name :: !MeantFor(ps, i, appSet, isDay2)
  }

  // The template's parameters as they are, and after them every parameter of the instance
  // that is meant for the set, the first of its name, unless the template has the name.
  ghost predicate HelmOf(template: seq<HelmParameter>, ps: seq<Parameter>, appSet: string, isDay2: bool,
      r: seq<HelmParameter>) {
    && |template| <= |r| && r[..|template|] == template
    && (forall j | |template| <= j < |r| :: Given(template, ps, appSet, isDay2, r[j]))
    && (forall k: nat | FirstMeant(ps, k, appSet, isDay2) :: Present(template, ps[k], r))
    && (forall i, j | |template| <= i < j < |r| :: r[i].name != r[j].name)
  }

  ghost predicate Given(template: seq<HelmParameter>, ps: seq<Parameter>, appSet: string, isDay2: bool,
      x: HelmParameter) {
    && (forall i | 0 <= i < |template| :: template[i].name != x.name)
    && exists k: nat :: FirstMeant(ps, k, appSet, isDay2) && x == HelmParameter(ps[k].name, ps[k].value)
  }

  ghost predicate Present(template: seq<HelmParameter>, p: Parameter, r: seq<HelmParameter>) {
    || (exists i :: 0 <= i < |template| && template[i].name == p.name)
    || HelmParameter(p.name, p.value) in r
  }

  lemma {:induction false} FirstApplicableIs(ps: seq<Parameter>, appSet: string, isDay2: bool, name: string)
    ensures var v := FirstApplicable(ps, appSet, isDay2, name);
      && (v == [] ==> forall k: nat | FirstMeant(ps, k, appSet, isDay2) :: ps[k].name != name)
      && (v != [] ==> exists k: nat :: FirstMeant(ps, k, appSet, isDay2) && ps[k].name == name && v == [ps[k].value])
  {
    if ps != [] {
      var rest := ps[1..];
      FirstApplicableIs(rest, appSet, isDay2, name);
      assert forall i: nat | i < |rest| :: rest[i] == ps[i + 1];
      if MeantFor(ps, 0, appSet, isDay2) && ps[0].name == name {
        assert FirstMeant(ps, 0, appSet, isDay2);
      } else {
        FirstFurtherOn(ps, appSet, isDay2, name);
      }
    }
  }

  lemma FirstFurtherOn(ps: seq<Parameter>, appSet: string, isDay2: bool, name: string)
    requires ps != [] && !(MeantFor(ps, 0, appSet, isDay2) && ps[0].name == name)
    ensures forall k: nat | FirstMeant(ps[1..], k, appSet, isDay2) && ps[1..][k].name == name ::
        FirstMeant(ps, k + 1, appSet, isDay2)
    ensures forall k: nat | 0 < k && FirstMeant(ps, k, appSet, isDay2) && ps[k].name == name ::
        FirstMeant(ps[1..], k - 1, appSet, isDay2)
    ensures FirstMeant(ps, 0, appSet, isDay2) ==> ps[0].name != name
  {
    var rest := ps[1..];
    assert forall i: nat | i < |rest| :: rest[i] == ps[i + 1];
    assert forall i: nat | i < |rest| :: MeantFor(rest, i, appSet, isDay2) == MeantFor(ps, i + 1, appSet, isDay2);
  }

  lemma {:induction false} LookupAt(params: seq<HelmParameter>, j: nat)
    requires j < |params| && forall i | 0 <= i < j :: params[i].name != params[j].name
    ensures Lookup(params, params[j].name) == [params[j].value]
  {
    if j > 0 {
      LookupAt(params[1..], j - 1);
    }
  }

  lemma {:induction false} LookupFinds(params: seq<HelmParameter>, name: string)
    ensures Lookup(params, name) != [] ==> HelmParameter(name, Lookup(params, name)[0]) in params
  {
    if params != [] && params[0].name != name {
      LookupFinds(params[1..], name);
    } else if params != [] {
      assert params[0] == HelmParameter(name, params[0].value);
    }
  }

  lemma AppendedIsGiven(template: seq<HelmParameter>, ps: seq<Parameter>, appSet: string, isDay2: bool,
      r: seq<HelmParameter>, j: nat)
    requires Merged(template, ps, appSet, isDay2, r) && |template| <= j < |r|
    ensures Given(template, ps, appSet, isDay2, r[j])
  {
    hide FirstApplicable, FirstMeant;
    var n := r[j].name;
    assert !Defines(template, n);
    forall i | 0 <= i < j ensures r[i].name != n {
      assert i < |template| ==> r[i] == template[i];
      assert i >= |template| ==> r[|template|..][i - |template|] == r[i] && r[|template|..][j - |template|] == r[j];
    }
    LookupAt(r, j);
    assert Lookup(r, n) == FirstApplicable(ps, appSet, isDay2, n);
    FirstApplicableIs(ps, appSet, isDay2, n);
  }

  lemma MeantIsPresent(template: seq<HelmParameter>, ps: seq<Parameter>, appSet: string, isDay2: bool,
      r: seq<HelmParameter>, k: nat)
    requires Merged(template, ps, appSet, isDay2, r) && FirstMeant(ps, k, appSet, isDay2)
    ensures Present(template, ps[k], r)
  {
    hide FirstApplicable;
    var n := ps[k].name;
    if !Defines(template, n) {
      assert Lookup(r, n) == FirstApplicable(ps, appSet, isDay2, n);
      FirstApplicableIs(ps, appSet, isDay2, n);
      assert Lookup(r, n) == [ps[k].value];
      LookupFinds(r, n);
    }
  }

  /** The merge, told by the places of the parameters in the instance's own list. */
  lemma MergedByPlaces(template: seq<HelmParameter>, ps: seq<Parameter>, appSet: string, isDay2: bool)
    ensures HelmOf(template, ps, appSet, isDay2, MergeParams(template, ps, appSet, isDay2))
  {
    MergeIsRight(template, ps, appSet, isDay2);
    hide MergeParams, Given, Present;
    var r := MergeParams(template, ps, appSet, isDay2);
    forall j | |template| <= j < |r| ensures Given(template, ps, appSet, isDay2, r[j]) {
      AppendedIsGiven(template, ps, appSet, isDay2, r, j);
    }
    forall k: nat | FirstMeant(ps, k, appSet, isDay2) ensures Present(template, ps[k], r) {
      MeantIsPresent(template, ps, appSet, isDay2, r, k);
    }
    forall i, j | |template| <= i < j < |r| ensures r[i].name != r[j].name {
      assert r[|template|..][i - |template|] == r[i] && r[|template|..][j - |template|] == r[j];
    }
  }

  /** GetHelmParameters. */
  method GetHelmParameters(template: seq<HelmParameter>, ps: seq<Parameter>, appSet: string, isDay2: bool)
    returns (params: seq<HelmParameter>)
    ensures params == MergeParams(template, ps, appSet, isDay2)
    ensures HelmOf(template, ps, appSet, isDay2, params)
  {
    hide HelmOf;
    params := template;
    for i := 0 to |ps|
      invariant MergeParams(params, ps[i..], appSet, isDay2) == MergeParams(template, ps, appSet, isDay2)
    {
      var param := ps[i];
      assert ps[i..][0] == param && ps[i..][1..] == ps[i + 1..];
      if (!isDay2 && param.appSet == "") || param.appSet == appSet {
        var found := false;
        for j := 0 to |params|
          invariant !found
          invariant !Defines(params[..j], param.name)
        {
          if params[j].name == param.name {
            found := true;
            break;
          }
        }
        assert params[..|params|] == params;
        if !found {
          params := params + [HelmParameter(param.name, param.value)];
        }
      }
    }
    MergedByPlaces(template, ps, appSet, isDay2);
  }

  // The finalizers of an application: those its generator sets, else the template's.
  function Finalizers(t: Template, g: Generator): seq<Finalizer>
    requires g.List?
  {
    if g.template.finalizers == [] then t.finalizers else g.template.finalizers
  }

  // What the generator of instance `i` in set `appSet` has to be: labelled for it, made for
  // `server` and the instance's namespace, marked as a setup or not, cleaned up when it
  // goes without losing a finalizer of the template, and with the parameters of the chart.
  ghost predicate Suits(i: Instance, appSet: string, t: Template, server: string, isDay2: bool, g: Generator) {
    && g.List? && g.nameLabel == i.key.name && g.namespaceLabel == i.key.namespace
    && g.template.server == server && g.template.instanceNamespace == i.key.namespace
    && (g.template.setupLabel <==> isDay2)
    && (if isDay2 then g.template.name == i.uid + "-" + appSet else g.template.name == i.uid)
    && ResourcesFinalizer in Finalizers(t, g) && t.finalizers <= Finalizers(t, g)
    && (t.chart == "" ==> g.template.helm == [])
    && (t.chart != "" ==> HelmOf(t.helm, i.parameters, appSet, isDay2, g.template.helm))
  }

  // The generator that UpdateApplicationSet appends for the instance.
  function NewGenerator(i: Instance, appSet: string, t: Template, server: string, isDay2: bool): (g: Generator)
    ensures Owns(i.key, g)
  {
    List(i.key.name, i.key.namespace,
         GeneratorTemplate(
           if isDay2 then i.uid + "-" + appSet else i.uid,
           isDay2,
           server,
           i.key.namespace,
           if ResourcesFinalizer in t.finalizers then [] else t.finalizers + [ResourcesFinalizer],
           if t.chart != "" then MergeParams(t.helm, i.parameters, appSet, isDay2) else []))
  }

  lemma NewGeneratorSuits(i: Instance, appSet: string, t: Template, server: string, isDay2: bool)
    ensures Suits(i, appSet, t, server, isDay2, NewGenerator(i, appSet, t, server, isDay2))
  {
    hide HelmOf, MergeParams;
    MergedByPlaces(t.helm, i.parameters, appSet, isDay2);
  }

  /** The applications of one instance have different names: those of two sets, and that of
      the definition from that of any setup. */
  lemma NamesDiffer(i: Instance, a: string, b: string, s: Template, t: Template, url: string, server: string,
      g: Generator, h: Generator, isDay2: bool)
    requires Suits(i, a, s, url, true, g) && Suits(i, b, t, server, isDay2, h)
    ensures g.template.name == h.template.name <==> isDay2 && a == b
  {
    hide HelmOf;
    if isDay2 && a != b {
      assert (i.uid + "-" + a)[|i.uid| + 1..] == a && (i.uid + "-" + b)[|i.uid| + 1..] == b;
    } else if !isDay2 {
      assert |i.uid + "-" + a| > |i.uid|;
    }
  }

  /** Merged determines the merge up to the order of the appended names: every
      parameter it appends carries the instance's own first value, and every applicable
      name the template lacks is there. */
  lemma MergedIsComplete(template: seq<HelmParameter>, ps: seq<Parameter>, appSet: string, isDay2: bool,
      params: seq<HelmParameter>, n: string)
    requires Merged(template, ps, appSet, isDay2, params)
    ensures Defines(params, n) <==>
        Defines(template, n) || exists p | p in ps :: Applies(p, appSet, isDay2) && p.name == n
  {
    assert Lookup(params, n) == if Defines(template, n) then Lookup(template, n)
      else FirstApplicable(ps, appSet, isDay2, n);
    FirstApplicableExists(ps, appSet, isDay2, n);
  }

  lemma {:induction false} FirstApplicableExists(ps: seq<Parameter>, appSet: string, isDay2: bool, n: string)
    ensures FirstApplicable(ps, appSet, isDay2, n) != [] <==>
        exists p | p in ps :: Applies(p, appSet, isDay2) && p.name == n
  {
    if ps != [] {
      FirstApplicableExists(ps[1..], appSet, isDay2, n);
      assert ps == [ps[0]] + ps[1..];
    }
  }
}
