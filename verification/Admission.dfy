/** The admission check: what it decides from the cached quota status, and when it crashes. */
module Admission {
  import opened Conditions
  import opened Quotas

  datatype Quota = Quota(spec: QuotaSpec, status: QuotaStatus)

  // NilCost: the source dereferences a template cost that is not there.
  datatype Verdict = Admitted | UnknownTemplate | OverBudget | OverCount | NotAllowed | NilCost

  predicate NamedIn(templates: seq<ClusterTemplate>, name: string) {
    exists i | 0 <= i < |templates| :: templates[i].name == name
  }

  // The first template of the name.
  function TemplateOf(templates: seq<ClusterTemplate>, name: string): ClusterTemplate
    requires NamedIn(templates, name)
  {
    if templates[0].name == name then templates[0]
    else
      assert NamedIn(templates[1..], name) by {
        var i :| 0 <= i < |templates| && templates[i].name == name;
        assert templates[1..][i - 1].name == name;
      }
      TemplateOf(templates[1..], name)
  }

  // The last entry for the template sets its limit; without one, or with 0, there is none.
  function Limit(allowed: seq<Allowed>, name: string): int {
    if allowed == [] then 0
    else if allowed[|allowed| - 1].name == name then allowed[|allowed| - 1].count
    else Limit(allowed[..|allowed| - 1], name)
  }

  // Entry `k` is the last one for the template.
  predicate LastEntry(allowed: seq<Allowed>, k: nat, name: string) {
    k < |allowed| && allowed[k].name == name && forall j | k < j < |allowed| :: allowed[j].name != name
  }

  /** The limit, entry by entry: the count of the last entry for the template, whatever the
      others say; without an entry there is none. */
  lemma {:induction false} LimitByEntries(allowed: seq<Allowed>, name: string)
    ensures forall k: nat | LastEntry(allowed, k, name) :: Limit(allowed, name) == allowed[k].count
    ensures (forall k | 0 <= k < |allowed| :: allowed[k].name != name) ==> Limit(allowed, name) == 0
    ensures Limit(allowed, name) != 0 ==> exists k: nat :: LastEntry(allowed, k, name)
  {
    if allowed != [] {
      var n := |allowed| - 1;
      var rest := allowed[..n];
      assert forall j | 0 <= j < n :: rest[j] == allowed[j];
      if allowed[n].name == name {
        assert LastEntry(allowed, n, name);
      } else {
        LimitByEntries(rest, name);
        assert forall k: nat :: LastEntry(rest, k, name) <==> LastEntry(allowed, k, name);
      }
    }
  }

  // Template `t` is the first one of the name.
  predicate FirstNamed(templates: seq<ClusterTemplate>, t: nat, name: string) {
    t < |templates| && templates[t].name == name && forall j | 0 <= j < t :: templates[j].name != name
  }

  lemma {:induction false} TemplateByPlace(templates: seq<ClusterTemplate>, t: nat, name: string)
    requires FirstNamed(templates, t, name)
    ensures NamedIn(templates, name) && TemplateOf(templates, name) == templates[t]
  {
    if t > 0 {
      TemplateByPlace(templates[1..], t - 1, name);
    }
  }

  lemma {:induction false} NamedFirst(templates: seq<ClusterTemplate>, name: string) returns (t: nat)
    requires NamedIn(templates, name)
    ensures FirstNamed(templates, t, name)
  {
    var i: nat :| i < |templates| && templates[i].name == name;
    t := 0;
    while templates[t].name != name
      invariant t <= i && forall j | 0 <= j < t :: templates[j].name != name
      decreases i - t
    {
      t := t + 1;
    }
  }

  // The cached count of the template has come to `max`.
  predicate Reached(q: Quota, name: string, max: int) {
    exists i | 0 <= i < |q.status.counts| :: q.status.counts[i].name == name && q.status.counts[i].count >= max
  }

  // The last entry for the template has a maximum, and it is reached.
  predicate Full(q: Quota, name: string) {
    exists k | 0 <= k < |q.spec.allowed| ::
      LastEntry(q.spec.allowed, k, name) && 0 < q.spec.allowed[k].count && Reached(q, name, q.spec.allowed[k].count)
  }

  lemma FullByLimit(q: Quota, name: string)
    ensures Full(q, name) <==> 0 < Limit(q.spec.allowed, name) && Reached(q, name, Limit(q.spec.allowed, name))
  {
    hide Limit, Reached;
    LimitByEntries(q.spec.allowed, name);
    if Full(q, name) {
      var k: nat :| LastEntry(q.spec.allowed, k, name) && 0 < q.spec.allowed[k].count
        && Reached(q, name, q.spec.allowed[k].count);
    } else if 0 < Limit(q.spec.allowed, name) {
      var k: nat :| LastEntry(q.spec.allowed, k, name);
    }
  }

  // One quota's say; Admitted here means "no objection".
  function Objection(q: Quota, ct: ClusterTemplate): Verdict {
    if 0 < q.spec.budget && ct.cost == None then NilCost
    else if 0 < q.spec.budget && q.spec.budget < q.status.spent + ct.cost.value then OverBudget
    else if Full(q, ct.name) then OverCount
    else Admitted
  }

  // The first objection, in the order of the list.
  function FirstObjection(quotas: seq<Quota>, ct: ClusterTemplate): Verdict {
    if quotas == [] then Admitted
    else if Objection(quotas[0], ct) != Admitted then Objection(quotas[0], ct)
    else FirstObjection(quotas[1..], ct)
  }

  predicate SomeAllow(quotas: seq<Quota>, name: string) {
    exists i | 0 <= i < |quotas| :: IsAllowed(quotas[i].spec.allowed, name)
  }

  // The decision for an instance that has no secret reference.
  function Judge(ref: string, templates: seq<ClusterTemplate>, quotas: seq<Quota>): Verdict {
    if !NamedIn(templates, ref) then UnknownTemplate
    else if quotas == [] then Admitted
    else
      var v := FirstObjection(quotas, TemplateOf(templates, ref));
      if v != Admitted then v else if SomeAllow(quotas, ref) then Admitted else NotAllowed
  }

  lemma {:induction false} TemplateOfIsNamed(templates: seq<ClusterTemplate>, name: string)
    requires NamedIn(templates, name)
    ensures TemplateOf(templates, name).name == name && TemplateOf(templates, name) in templates
  {
    if templates[0].name != name {
      var i :| 0 <= i < |templates| && templates[i].name == name;
      assert templates[1..][i - 1].name == name;
      TemplateOfIsNamed(templates[1..], name);
    }
  }

  lemma {:induction false} NoObjection(quotas: seq<Quota>, ct: ClusterTemplate)
    ensures FirstObjection(quotas, ct) == Admitted <==>
        forall i | 0 <= i < |quotas| :: Objection(quotas[i], ct) == Admitted
  {
    if quotas != [] {
      NoObjection(quotas[1..], ct);
      if FirstObjection(quotas, ct) == Admitted {
        forall i | 0 <= i < |quotas| ensures Objection(quotas[i], ct) == Admitted {
          assert i > 0 ==> quotas[i] == quotas[1..][i - 1];
        }
      } else if Objection(quotas[0], ct) == Admitted {
        var i :| 0 <= i < |quotas[1..]| && Objection(quotas[1..][i], ct) != Admitted;
        assert quotas[i + 1] == quotas[1..][i];
      }
    }
  }

  // Room in the quota, going by its cached status.
  predicate HasRoom(q: Quota, ct: ClusterTemplate) {
    && (0 < q.spec.budget ==> ct.cost.Some? && q.status.spent + ct.cost.value <= q.spec.budget)
    && !Full(q, ct.name)
  }

  /** An instance is let in exactly when its template exists and either there is no quota,
      or every quota's cached status has room for it and one of them lists it. */
  lemma AdmittedExactlyWhen(ref: string, templates: seq<ClusterTemplate>, quotas: seq<Quota>)
    ensures Judge(ref, templates, quotas) == Admitted <==>
      exists t: nat :: FirstNamed(templates, t, ref) &&
        (quotas == [] || ((forall q | q in quotas :: HasRoom(q, templates[t])) && SomeAllow(quotas, ref)))
  {
    hide Full;
    if !NamedIn(templates, ref) {
      assert forall t: nat :: !FirstNamed(templates, t, ref);
    } else {
      var ct := TemplateOf(templates, ref);
      var t := NamedFirst(templates, ref);
      forall u: nat | FirstNamed(templates, u, ref) ensures templates[u] == ct {
        TemplateByPlace(templates, u, ref);
      }
      NoObjection(quotas, ct);
      assert forall q :: Objection(q, ct) == Admitted <==> HasRoom(q, ct);
      if forall i | 0 <= i < |quotas| :: Objection(quotas[i], ct) == Admitted {
        forall q | q in quotas ensures HasRoom(q, ct) {
          var i :| 0 <= i < |quotas| && quotas[i] == q;
          assert Objection(quotas[i], ct) == Admitted;
        }
      } else {
        var i :| 0 <= i < |quotas| && Objection(quotas[i], ct) != Admitted;
        assert !HasRoom(quotas[i], ct) && quotas[i] in quotas;
      }
    }
  }

  // The check reaches entry i and finds a budget there.
  predicate MeetsBudgetAt(quotas: seq<Quota>, name: string, i: nat) {
    && i < |quotas| && 0 < quotas[i].spec.budget
    && forall j | 0 <= j < i :: quotas[j].spec.budget <= 0 && !Full(quotas[j], name)
  }

  lemma {:induction false} NilCostWhen(quotas: seq<Quota>, ct: ClusterTemplate)
    ensures FirstObjection(quotas, ct) == NilCost <==>
      ct.cost == None && exists i: nat :: MeetsBudgetAt(quotas, ct.name, i)
  {
    if quotas != [] {
      var rest := quotas[1..];
      NilCostWhen(rest, ct);
      if 0 < quotas[0].spec.budget {
        assert MeetsBudgetAt(quotas, ct.name, 0);
      } else if Full(quotas[0], ct.name) {
        assert forall i: nat :: MeetsBudgetAt(quotas, ct.name, i) ==> i == 0;
      } else {
        forall i: nat ensures MeetsBudgetAt(rest, ct.name, i) <==> MeetsBudgetAt(quotas, ct.name, i + 1) {
          LaterBudget(quotas, ct.name, i);
        }
        if exists i: nat :: MeetsBudgetAt(quotas, ct.name, i) {
          var i: nat :| MeetsBudgetAt(quotas, ct.name, i);
          assert MeetsBudgetAt(rest, ct.name, i - 1);
        }
      }
    }
  }

  lemma LaterBudget(quotas: seq<Quota>, name: string, i: nat)
    requires quotas != [] && quotas[0].spec.budget <= 0 && !Full(quotas[0], name)
    ensures MeetsBudgetAt(quotas[1..], name, i) <==> MeetsBudgetAt(quotas, name, i + 1)
  {
    if MeetsBudgetAt(quotas[1..], name, i) {
      forall j | 0 <= j < i + 1 ensures quotas[j].spec.budget <= 0 && !Full(quotas[j], name) {
        assert j > 0 ==> quotas[j] == quotas[1..][j - 1];
      }
    }
    if MeetsBudgetAt(quotas, name, i + 1) {
      assert forall j | 0 <= j < i :: quotas[1..][j] == quotas[j + 1];
    }
  }

  /** The check crashes exactly when the template has no cost and some quota has a budget,
      with no quota listed before it that has one or that turns the instance away. */
  lemma CrashesExactlyWhenCostMissing(ref: string, templates: seq<ClusterTemplate>, quotas: seq<Quota>)
    ensures Judge(ref, templates, quotas) == NilCost <==>
      && (exists t: nat :: FirstNamed(templates, t, ref) && templates[t].cost == None)
      && exists i: nat :: MeetsBudgetAt(quotas, ref, i)
  {
    hide MeetsBudgetAt;
    if !NamedIn(templates, ref) {
      assert forall t: nat :: !FirstNamed(templates, t, ref);
    } else {
      NilCostWhen(quotas, TemplateOf(templates, ref));
      TemplateOfIsNamed(templates, ref);
      var t := NamedFirst(templates, ref);
      forall u: nat | FirstNamed(templates, u, ref) ensures templates[u] == TemplateOf(templates, ref) {
        TemplateByPlace(templates, u, ref);
      }
    }
  }

  // What an instance of template `ct` is refused for by the first quota without room.
  predicate RefusedFor(q: Quota, ct: ClusterTemplate, v: Verdict) {
    if 0 < q.spec.budget && ct.cost == None then v == NilCost
    else if 0 < q.spec.budget && q.spec.budget < q.status.spent + ct.cost.value then v == OverBudget
    else v == OverCount
  }

  lemma {:induction false} FirstWithoutRoom(quotas: seq<Quota>, ct: ClusterTemplate, i: nat)
    requires i < |quotas| && !HasRoom(quotas[i], ct) && forall j | 0 <= j < i :: HasRoom(quotas[j], ct)
    ensures RefusedFor(quotas[i], ct, FirstObjection(quotas, ct))
  {
    hide Full;
    if i > 0 {
      assert HasRoom(quotas[0], ct);
      FirstWithoutRoom(quotas[1..], ct, i - 1);
    }
  }

  /** An instance that is not let in is told why: that there is no such template; what the
      first quota without room for it lacks; or that no quota lists the template. */
  lemma RefusedExactlyFor(ref: string, templates: seq<ClusterTemplate>, quotas: seq<Quota>, t: nat)
    ensures Judge(ref, templates, quotas) == UnknownTemplate <==>
        forall i | 0 <= i < |templates| :: templates[i].name != ref
    ensures FirstNamed(templates, t, ref) ==>
      && (forall i: nat | i < |quotas| && !HasRoom(quotas[i], templates[t])
            && (forall j | 0 <= j < i :: HasRoom(quotas[j], templates[t])) ::
            RefusedFor(quotas[i], templates[t], Judge(ref, templates, quotas)))
      && (Judge(ref, templates, quotas) == NotAllowed <==>
            && quotas != [] && (forall i | 0 <= i < |quotas| :: HasRoom(quotas[i], templates[t]))
            && forall i | 0 <= i < |quotas| :: !IsAllowed(quotas[i].spec.allowed, ref))
  {
    hide Full, IsAllowed;
    if FirstNamed(templates, t, ref) {
      TemplateByPlace(templates, t, ref);
      forall i: nat | i < |quotas| && !HasRoom(quotas[i], templates[t])
          && (forall j | 0 <= j < i :: HasRoom(quotas[j], templates[t]))
        ensures RefusedFor(quotas[i], templates[t], Judge(ref, templates, quotas))
      {
        FirstWithoutRoom(quotas, templates[t], i);
      }
      NoObjection(quotas, templates[t]);
      NeverNotAllowed(quotas, templates[t]);
      assert forall q :: Objection(q, templates[t]) == Admitted <==> HasRoom(q, templates[t]);
    }
    NeverUnknown(quotas, ref, templates);
  }

  lemma {:induction false} NeverNotAllowed(quotas: seq<Quota>, ct: ClusterTemplate)
    ensures FirstObjection(quotas, ct) != NotAllowed && FirstObjection(quotas, ct) != UnknownTemplate
  {
    hide Full;
    if quotas != [] {
      NeverNotAllowed(quotas[1..], ct);
    }
  }

  lemma NeverUnknown(quotas: seq<Quota>, ref: string, templates: seq<ClusterTemplate>)
    ensures Judge(ref, templates, quotas) == UnknownTemplate <==> !NamedIn(templates, ref)
  {
    hide FirstObjection;
    if NamedIn(templates, ref) {
      NeverNotAllowed(quotas, TemplateOf(templates, ref));
    }
  }

  // A quota with a budget, and an instance of a template that has no cost.
  lemma BudgetMeetsNoCost()
    ensures var small := ClusterTemplate("small", None);
      var quota := Quota(QuotaSpec(10, [Allowed("small", 0, None)]), QuotaStatus(0, [TemplateCount("small", 0)]));
      Judge("small", [small], [quota]) == NilCost
  {
    var small := ClusterTemplate("small", None);
    var quota := Quota(QuotaSpec(10, [Allowed("small", 0, None)]), QuotaStatus(0, [TemplateCount("small", 0)]));
    assert [small][0].name == "small" && [quota][0] == quota;
    assert MeetsBudgetAt([quota], "small", 0) && FirstNamed([small], 0, "small");
    CrashesExactlyWhenCostMissing("small", [small], [quota]);
  }

  // -------- the loops of checkQuota --------

  method FindTemplate(templates: seq<ClusterTemplate>, name: string) returns (ct: Option<ClusterTemplate>)
    ensures ct == if NamedIn(templates, name) then Some(TemplateOf(templates, name)) else None
  {
    for i := 0 to |templates|
      invariant !NamedIn(templates[..i], name)
      invariant NamedIn(templates, name) <==> NamedIn(templates[i..], name)
      invariant NamedIn(templates, name) ==> TemplateOf(templates, name) == TemplateOf(templates[i..], name)
    {
      assert templates[i..][0] == templates[i] && templates[i..][1..] == templates[i + 1..];
      if templates[i].name == name {
        return Some(templates[i]);
      }
      assert templates[..i + 1] == templates[..i] + [templates[i]];
      StillNamed(templates[i..], name);
    }
    ct := None;
  }

  lemma StillNamed(templates: seq<ClusterTemplate>, name: string)
    requires templates != [] && templates[0].name != name
    ensures NamedIn(templates, name) <==> NamedIn(templates[1..], name)
  {
    if NamedIn(templates, name) {
      var i :| 0 <= i < |templates| && templates[i].name == name;
      assert templates[1..][i - 1].name == name;
    }
    if NamedIn(templates[1..], name) {
      var i :| 0 <= i < |templates[1..]| && templates[1..][i].name == name;
      assert templates[i + 1].name == name;
    }
  }

  method FindLimit(allowed: seq<Allowed>, name: string) returns (found: bool, maxAllowed: int)
    ensures found <==> IsAllowed(allowed, name)
    ensures maxAllowed == Limit(allowed, name)
    ensures forall k: nat | LastEntry(allowed, k, name) :: maxAllowed == allowed[k].count
    ensures !found ==> maxAllowed == 0
  {
    LimitByEntries(allowed, name);
    found, maxAllowed := false, 0;
    for i := 0 to |allowed|
      invariant found <==> IsAllowed(allowed[..i], name)
      invariant maxAllowed == Limit(allowed[..i], name)
    {
      assert allowed[..i + 1][..i] == allowed[..i] && allowed[..i + 1][i] == allowed[i];
      assert forall j | 0 <= j < i :: allowed[..i + 1][j] == allowed[..i][j];
      if allowed[i].name == name {
        found, maxAllowed := true, allowed[i].count;
      }
    }
    assert allowed[..|allowed|] == allowed;
  }

  method CountReached(counts: seq<TemplateCount>, name: string, max: int) returns (reached: bool)
    ensures reached <==> exists i | 0 <= i < |counts| :: counts[i].name == name && counts[i].count >= max
  {
    for i := 0 to |counts|
      invariant forall j | 0 <= j < i :: !(counts[j].name == name && counts[j].count >= max)
    {
      if counts[i].name == name {
        if counts[i].count >= max {
          return true;
        }
      }
    }
    reached := false;
  }

  /** checkQuota. */
  method CheckQuota(ref: string, hasSecretRef: bool, templates: seq<ClusterTemplate>, quotas: seq<Quota>)
      returns (v: Verdict)
    ensures v == if hasSecretRef then Admitted else Judge(ref, templates, quotas)
  {
    if hasSecretRef {
      return Admitted;
    }
    var found := FindTemplate(templates, ref);
    if found == None {
      return UnknownTemplate;
    }
    var ct := found.value;
    TemplateOfIsNamed(templates, ref);
    if |quotas| == 0 {
      return Admitted;
    }
    var templateAllowed := false;
    for i := 0 to |quotas|
      invariant FirstObjection(quotas, ct) == FirstObjection(quotas[i..], ct)
      invariant templateAllowed <==> SomeAllow(quotas[..i], ref)
    {
      var quota := quotas[i];
      assert quotas[i..][0] == quota && quotas[i..][1..] == quotas[i + 1..];
      if 0 < quota.spec.budget {
        if ct.cost == None {
          return NilCost;
        }
        if quota.spec.budget < quota.status.spent + ct.cost.value {
          return OverBudget;
        }
      }
      var listed, maxAllowed := FindLimit(quota.spec.allowed, ref);
      assert forall j | 0 <= j < i :: quotas[..i + 1][j] == quotas[..i][j];
      assert quotas[..i + 1][i] == quota;
      if listed {
        templateAllowed := true;
      }
      FullByLimit(quota, ref);
      if 0 < maxAllowed {
        var reached := CountReached(quota.status.counts, ref, maxAllowed);
        if reached {
          return OverCount;
        }
      }
    }
    assert quotas[..|quotas|] == quotas;
    if !templateAllowed {
      return NotAllowed;
    }
    v := Admitted;
  }
}
