/** The controller that caches how much of a quota is used: what the status it stores
    says, and when a template is charged for more than once. */
module Quotas {
  import opened Conditions

  datatype ClusterTemplate = ClusterTemplate(name: string, cost: Option<int>)

  // A count of 0 is "not limited", as the field is when it is left out.
  datatype Allowed = Allowed(name: string, count: int, deleteAfter: Option<int>)

  datatype TemplateCount = TemplateCount(name: string, count: int)

  datatype QuotaSpec = QuotaSpec(budget: int, allowed: seq<Allowed>)

  datatype QuotaStatus = QuotaStatus(spent: int, counts: seq<TemplateCount>)

  // -------- what the status ought to say --------

  // How many of the instances refer to the template; an instance is its template's name.
  function CountOf(instances: seq<string>, name: string): nat {
    if instances == [] then 0
    else (if instances[0] == name then 1 else 0) + CountOf(instances[1..], name)
  }

  // The cost of the first template of the name that has one; -1 is the source's "none".
  function CostIn(templates: seq<ClusterTemplate>, name: string): int {
    if templates == [] then -1
    else if templates[0].name == name && templates[0].cost.Some? then templates[0].cost.value
    else CostIn(templates[1..], name)
  }

  function Price(templates: seq<ClusterTemplate>, name: string): int {
    if CostIn(templates, name) == -1 then 0 else CostIn(templates, name)
  }

  // Template `t` is the first of the name that has a cost.
  predicate FirstPriced(templates: seq<ClusterTemplate>, t: nat, name: string) {
    && t < |templates| && templates[t].name == name && templates[t].cost.Some?
    && forall j | 0 <= j < t :: templates[j].name != name || templates[j].cost.None?
  }

  /** What an instance of a template is charged: the cost of the first template of the name
      that has one; without such a template, nothing. */
  lemma {:induction false} PriceByPlace(templates: seq<ClusterTemplate>, t: nat, name: string)
    ensures FirstPriced(templates, t, name) ==>
        Price(templates, name) == if templates[t].cost.value == -1 then 0 else templates[t].cost.value
    ensures (forall j | 0 <= j < |templates| :: templates[j].name != name || templates[j].cost.None?) ==>
        Price(templates, name) == 0
  {
    if templates != [] && (templates[0].name != name || templates[0].cost.None?) {
      PriceByPlace(templates[1..], if t == 0 then 0 else t - 1, name);
      assert forall j | 0 <= j < |templates[1..]| :: templates[1..][j] == templates[j + 1];
    }
  }

  function Mentions(allowed: seq<Allowed>, name: string): nat {
    if allowed == [] then 0
    else (if allowed[0].name == name then 1 else 0) + Mentions(allowed[1..], name)
  }

  // What the instances cost, instance by instance.
  function Bill(allowed: seq<Allowed>, templates: seq<ClusterTemplate>, instances: seq<string>): int {
    if instances == [] then 0
    else Mentions(allowed, instances[0]) * Price(templates, instances[0]) + Bill(allowed, templates, instances[1..])
  }

  // What they cost, template by template, as the controller adds it up.
  function Charged(allowed: seq<Allowed>, templates: seq<ClusterTemplate>, instances: seq<string>): int {
    if allowed == [] then 0
    else
      CountOf(instances, allowed[0].name) * Price(templates, allowed[0].name)
        + Charged(allowed[1..], templates, instances)
  }

  function Counts(allowed: seq<Allowed>, instances: seq<string>): (r: seq<TemplateCount>)
    ensures |r| == |allowed|
    ensures forall i | 0 <= i < |r| :: r[i] == TemplateCount(allowed[i].name, CountOf(instances, allowed[i].name))
  {
    if allowed == [] then []
    else [TemplateCount(allowed[0].name, CountOf(instances, allowed[0].name))] + Counts(allowed[1..], instances)
  }

  function Accurate(allowed: seq<Allowed>, templates: seq<ClusterTemplate>, instances: seq<string>): QuotaStatus {
    QuotaStatus(Charged(allowed, templates, instances), Counts(allowed, instances))
  }

  predicate DistinctAllowed(allowed: seq<Allowed>) {
    forall i, j | 0 <= i < j < |allowed| :: allowed[i].name != allowed[j].name
  }

  predicate IsAllowed(allowed: seq<Allowed>, name: string) {
    exists i | 0 <= i < |allowed| :: allowed[i].name == name
  }

  // -------- the nested sums agree --------

  lemma {:induction false} NobodyCharged(allowed: seq<Allowed>, templates: seq<ClusterTemplate>)
    ensures Charged(allowed, templates, []) == 0
  {
    if allowed != [] {
      NobodyCharged(allowed[1..], templates);
    }
  }

  lemma OncePlus(n: int, p: int)
    ensures (1 + n) * p == p + n * p
  {}

  lemma {:induction false} OneMore(allowed: seq<Allowed>, templates: seq<ClusterTemplate>, instances: seq<string>)
    requires instances != []
    ensures Charged(allowed, templates, instances)
         == Mentions(allowed, instances[0]) * Price(templates, instances[0])
             + Charged(allowed, templates, instances[1..])
  {
    if allowed != [] {
      OneMore(allowed[1..], templates, instances);
      var a, p := allowed[0].name, Price(templates, instances[0]);
      var n, c := CountOf(instances[1..], a), Mentions(allowed[1..], instances[0]);
      if a == instances[0] {
        OncePlus(n, p);
        OncePlus(c, p);
      }
    }
  }

  /** Adding up template by template or instance by instance comes to the same. */
  lemma {:induction false} SpentIsTheBill(allowed: seq<Allowed>, templates: seq<ClusterTemplate>,
      instances: seq<string>)
    ensures Charged(allowed, templates, instances) == Bill(allowed, templates, instances)
  {
    if instances == [] {
      NobodyCharged(allowed, templates);
    } else {
      OneMore(allowed, templates, instances);
      SpentIsTheBill(allowed, templates, instances[1..]);
    }
  }

  lemma {:induction false} MentionedOnce(allowed: seq<Allowed>, name: string)
    requires DistinctAllowed(allowed)
    ensures Mentions(allowed, name) == if IsAllowed(allowed, name) then 1 else 0
  {
    if allowed != [] {
      MentionedOnce(allowed[1..], name);
      assert IsAllowed(allowed[1..], name) ==> IsAllowed(allowed, name) by {
        if IsAllowed(allowed[1..], name) {
          var i :| 0 <= i < |allowed[1..]| && allowed[1..][i].name == name;
          assert allowed[i + 1].name == name;
        }
      }
      if allowed[0].name != name && IsAllowed(allowed, name) {
        var i :| 0 <= i < |allowed| && allowed[i].name == name;
        assert allowed[1..][i - 1].name == name;
      }
    }
  }

  // The plain definition: every instance of an allowed template at its template's cost.
  function Spend(allowed: seq<Allowed>, templates: seq<ClusterTemplate>, instances: seq<string>): int {
    if instances == [] then 0
    else
      (if IsAllowed(allowed, instances[0]) then Price(templates, instances[0]) else 0)
        + Spend(allowed, templates, instances[1..])
  }

  lemma {:induction false} BillIsSpend(allowed: seq<Allowed>, templates: seq<ClusterTemplate>, instances: seq<string>)
    requires DistinctAllowed(allowed)
    ensures Bill(allowed, templates, instances) == Spend(allowed, templates, instances)
  {
    if instances != [] {
      MentionedOnce(allowed, instances[0]);
      BillIsSpend(allowed, templates, instances[1..]);
    }
  }

  /** With distinct allowed names the cached spend is what the instances of allowed
      templates cost; in general a template that is listed twice is charged twice. */
  lemma SpentMeansSpend(allowed: seq<Allowed>, templates: seq<ClusterTemplate>, instances: seq<string>)
    ensures Accurate(allowed, templates, instances).spent == Bill(allowed, templates, instances)
    ensures DistinctAllowed(allowed) ==>
        Accurate(allowed, templates, instances).spent == Spend(allowed, templates, instances)
  {
    SpentIsTheBill(allowed, templates, instances);
    if DistinctAllowed(allowed) {
      BillIsSpend(allowed, templates, instances);
    }
  }

  lemma {:induction false} MentionedExactlyWhen(allowed: seq<Allowed>, name: string)
    ensures 0 < Mentions(allowed, name) <==> IsAllowed(allowed, name)
  {
    if allowed != [] {
      MentionedExactlyWhen(allowed[1..], name);
      if IsAllowed(allowed[1..], name) {
        var i :| 0 <= i < |allowed[1..]| && allowed[1..][i].name == name;
        assert allowed[i + 1].name == name;
      }
      if allowed[0].name != name && IsAllowed(allowed, name) {
        var i :| 0 <= i < |allowed| && allowed[i].name == name;
        assert allowed[1..][i - 1].name == name;
      }
    }
  }

  // What is charged for the second and every further mention of a template.
  function Overcharge(allowed: seq<Allowed>, templates: seq<ClusterTemplate>, instances: seq<string>): int {
    if instances == [] then 0
    else
      (if IsAllowed(allowed, instances[0]) then (Mentions(allowed, instances[0]) - 1) * Price(templates, instances[0])
          else 0)
        + Overcharge(allowed, templates, instances[1..])
  }

  lemma {:induction false} BillIsSpendAndOvercharge(allowed: seq<Allowed>, templates: seq<ClusterTemplate>,
      instances: seq<string>)
    ensures Bill(allowed, templates, instances)
         == Spend(allowed, templates, instances) + Overcharge(allowed, templates, instances)
  {
    if instances != [] {
      var m, p := Mentions(allowed, instances[0]), Price(templates, instances[0]);
      MentionedExactlyWhen(allowed, instances[0]);
      BillIsSpendAndOvercharge(allowed, templates, instances[1..]);
      if 0 < m {
        OncePlus(m - 1, p);
      }
    }
  }

  // Every instance is charged once, or for nothing.
  predicate ChargedOnce(allowed: seq<Allowed>, templates: seq<ClusterTemplate>, instances: seq<string>) {
    forall i | 0 <= i < |instances| :: Mentions(allowed, instances[i]) <= 1 || Price(templates, instances[i]) == 0
  }

  lemma FurtherMentionsCost(m: int, p: int)
    requires 0 < m && 0 <= p
    ensures 0 <= (m - 1) * p && ((m - 1) * p == 0 <==> m == 1 || p == 0)
  {}

  lemma ChargedOnceOn(allowed: seq<Allowed>, templates: seq<ClusterTemplate>, instances: seq<string>)
    requires instances != []
    ensures ChargedOnce(allowed, templates, instances) <==>
      && (Mentions(allowed, instances[0]) <= 1 || Price(templates, instances[0]) == 0)
      && ChargedOnce(allowed, templates, instances[1..])
  {
    hide Mentions, Price;
    var rest := instances[1..];
    assert forall i | 0 <= i < |rest| :: rest[i] == instances[i + 1];
    assert forall i | 0 < i < |instances| :: instances[i] == rest[i - 1];
  }

  lemma {:induction false} NoOverchargeExactlyWhen(allowed: seq<Allowed>, templates: seq<ClusterTemplate>,
      instances: seq<string>)
    requires forall i | 0 <= i < |instances| :: 0 <= Price(templates, instances[i])
    ensures 0 <= Overcharge(allowed, templates, instances)
    ensures Overcharge(allowed, templates, instances) == 0 <==> ChargedOnce(allowed, templates, instances)
  {
    if instances != [] {
      var rest := instances[1..];
      var m, p := Mentions(allowed, instances[0]), Price(templates, instances[0]);
      assert forall i | 0 <= i < |rest| :: rest[i] == instances[i + 1];
      NoOverchargeExactlyWhen(allowed, templates, rest);
      MentionedExactlyWhen(allowed, instances[0]);
      ChargedOnceOn(allowed, templates, instances);
      if 0 < m {
        FurtherMentionsCost(m, p);
      }
    }
    hide Mentions, Price, ChargedOnce, IsAllowed;
  }

  /** With costs that are not negative the stored spend is the plain sum exactly when no
      instance is of a template that costs something and is listed more than once. In
      general it exceeds the plain sum by the cost of every further mention. */
  lemma PlainSumExactlyWhen(allowed: seq<Allowed>, templates: seq<ClusterTemplate>, instances: seq<string>)
    ensures Accurate(allowed, templates, instances).spent
         == Spend(allowed, templates, instances) + Overcharge(allowed, templates, instances)
    ensures (forall i | 0 <= i < |instances| :: 0 <= Price(templates, instances[i])) ==>
      (Accurate(allowed, templates, instances).spent == Spend(allowed, templates, instances) <==>
       ChargedOnce(allowed, templates, instances))
  {
    SpentIsTheBill(allowed, templates, instances);
    BillIsSpendAndOvercharge(allowed, templates, instances);
    if forall i | 0 <= i < |instances| :: 0 <= Price(templates, instances[i]) {
      NoOverchargeExactlyWhen(allowed, templates, instances);
    }
  }

  // A quota that lists one template twice: its one instance is charged twice.
  lemma ListedTwiceIsChargedTwice()
    ensures var allowed := [Allowed("big", 0, None), Allowed("big", 0, None)];
      var templates := [ClusterTemplate("big", Some(5))];
      Accurate(allowed, templates, ["big"]).spent == 10 && Spend(allowed, templates, ["big"]) == 5
  {
    var allowed := [Allowed("big", 0, None), Allowed("big", 0, None)];
    var templates := [ClusterTemplate("big", Some(5))];
    assert allowed[1..] == [Allowed("big", 0, None)] && allowed[1..][1..] == [];
    assert Mentions(allowed, "big") == 2;
    assert ["big"][1..] == [] && allowed[0].name == "big" && Price(templates, "big") == 5;
    PlainSumExactlyWhen(allowed, templates, ["big"]);
    assert Overcharge(allowed, templates, ["big"]) == 5 + Overcharge(allowed, templates, []);
  }

  lemma {:induction false} CountIsMultiplicity(instances: seq<string>, name: string)
    ensures CountOf(instances, name) == multiset(instances)[name]
  {
    if instances != [] {
      CountIsMultiplicity(instances[1..], name);
      assert instances == [instances[0]] + instances[1..];
    }
  }

  lemma {:induction false} ChargedByMultiplicity(allowed: seq<Allowed>, templates: seq<ClusterTemplate>,
      a: seq<string>, b: seq<string>)
    requires multiset(a) == multiset(b)
    ensures Charged(allowed, templates, a) == Charged(allowed, templates, b) && Counts(allowed, a) == Counts(allowed, b)
  {
    if allowed != [] {
      CountIsMultiplicity(a, allowed[0].name);
      CountIsMultiplicity(b, allowed[0].name);
      ChargedByMultiplicity(allowed[1..], templates, a, b);
    }
  }

  /** The order in which the server lists the instances does not matter. */
  lemma ListingOrderIsIrrelevant(allowed: seq<Allowed>, templates: seq<ClusterTemplate>, a: seq<string>, b: seq<string>)
    requires multiset(a) == multiset(b)
    ensures Accurate(allowed, templates, a) == Accurate(allowed, templates, b)
  {
    ChargedByMultiplicity(allowed, templates, a, b);
  }

  // -------- the controller --------

  lemma {:induction false} CountSnoc(instances: seq<string>, last: string, name: string)
    ensures CountOf(instances + [last], name) == CountOf(instances, name) + if last == name then 1 else 0
  {
    if instances == [] {
      assert instances + [last] == [last];
    } else {
      assert (instances + [last])[1..] == instances[1..] + [last];
      CountSnoc(instances[1..], last, name);
    }
  }

  lemma {:induction false} ChargedSnoc(allowed: seq<Allowed>, last: Allowed, templates: seq<ClusterTemplate>,
      instances: seq<string>)
    ensures Charged(allowed + [last], templates, instances)
         == Charged(allowed, templates, instances) + CountOf(instances, last.name) * Price(templates, last.name)
  {
    if allowed == [] {
      assert allowed + [last] == [last];
    } else {
      assert (allowed + [last])[1..] == allowed[1..] + [last];
      ChargedSnoc(allowed[1..], last, templates, instances);
    }
  }

  /** The stored status, entry by entry: every entry has the number of the instances of its
      template, and adds what they cost. */
  lemma StatusByEntries(allowed: seq<Allowed>, last: Allowed, templates: seq<ClusterTemplate>, instances: seq<string>)
    ensures Accurate([], templates, instances).spent == 0
    ensures Accurate(allowed + [last], templates, instances).spent ==
        Accurate(allowed, templates, instances).spent + multiset(instances)[last.name] * Price(templates, last.name)
    ensures var counts := Accurate(allowed, templates, instances).counts;
      && |counts| == |allowed|
      && forall i | 0 <= i < |allowed| ::
           counts[i].name == allowed[i].name && counts[i].count == multiset(instances)[allowed[i].name]
  {
    ChargedSnoc(allowed, last, templates, instances);
    CountIsMultiplicity(instances, last.name);
    forall i | 0 <= i < |allowed| ensures CountOf(instances, allowed[i].name) == multiset(instances)[allowed[i].name] {
      CountIsMultiplicity(instances, allowed[i].name);
    }
  }

  class ClusterTemplateQuota {
    const spec: QuotaSpec
    var status: QuotaStatus

    constructor (spec: QuotaSpec)
      ensures this.spec == spec && status == QuotaStatus(0, [])
    {
      this.spec := spec;
      status := QuotaStatus(0, []);
    }

    // The search for the template's cost.
    static method FindCost(templates: seq<ClusterTemplate>, name: string) returns (cost: int)
      ensures cost == CostIn(templates, name)
    {
      cost := -1;
      for i := 0 to |templates|
        invariant cost == -1 && CostIn(templates, name) == CostIn(templates[i..], name)
      {
        assert templates[i..][0] == templates[i] && templates[i..][1..] == templates[i + 1..];
        if templates[i].name == name && templates[i].cost.Some? {
          return templates[i].cost.value;
        }
      }
    }

    /** Reconcile: the status is overwritten with one that is accurate for the instances
        and templates that were listed. */
    method Reconcile(instances: seq<string>, templates: seq<ClusterTemplate>)
      modifies this
      ensures status == Accurate(spec.allowed, templates, instances)
    {
      var currentInstances: seq<TemplateCount> := [];
      var currentCost := 0;
      var allowed := spec.allowed;
      for i := 0 to |allowed|
        invariant currentCost == Charged(allowed[..i], templates, instances)
        invariant currentInstances == Counts(allowed[..i], instances)
      {
        var name := allowed[i].name;
        var count := 0;
        var templateCost := FindCost(templates, name);
        ghost var before := currentCost;
        for j := 0 to |instances|
          invariant count == CountOf(instances[..j], name)
          invariant currentCost == before + count * Price(templates, name)
        {
          assert instances[..j + 1] == instances[..j] + [instances[j]];
          CountSnoc(instances[..j], instances[j], name);
          if instances[j] == name {
            assert (count + 1) * Price(templates, name) == count * Price(templates, name) + Price(templates, name);
            count := count + 1;
            if templateCost != -1 {
              currentCost := currentCost + templateCost;
            }
          }
        }
        assert instances[..|instances|] == instances;
        currentInstances := currentInstances + [TemplateCount(name, count)];
        assert allowed[..i + 1] == allowed[..i] + [allowed[i]];
        ChargedSnoc(allowed[..i], allowed[i], templates, instances);
      }
      assert allowed[..|allowed|] == allowed;
      status := QuotaStatus(currentCost, currentInstances);
    }
  }
}
