/** Runs of one namespace under its quotas, while the statuses the admission check reads lag behind. */
module Overshoot {
  import opened Conditions
  import opened Quotas
  import opened Admission

  // A list of the namespace's instances, and those let in that it does not show.
  datatype Listing = Listing(listed: seq<string>, unseen: seq<string>)

  // One quota: the listing behind its cached status, and one that the quota controller has
  // taken but whose status it has not written yet.
  datatype View = View(spec: QuotaSpec, shown: Listing, pending: Option<Listing>)

  // `flying`: let in by the check, but not stored yet.
  datatype Namespace = Namespace(instances: seq<string>, flying: seq<string>, views: seq<View>)

  datatype Event =
    | Check(ref: string)     // the admission check of a new instance
    | Skip(ref: string)      // one with a secret reference, which is let in unchecked
    | Land(index: nat)       // one that was let in is stored
    | Drop(index: nat)       // or its request fails after all
    | Remove(index: nat)
    | List(quota: nat)       // the quota controller lists the instances
    | Write(quota: nat)      // and writes the status it computed from them

  // The cached status: accurate for the listing it was computed from.
  function Cached(templates: seq<ClusterTemplate>, v: View): Quota {
    Quota(v.spec, Accurate(v.spec.allowed, templates, v.shown.listed))
  }

  function CachedAll(templates: seq<ClusterTemplate>, views: seq<View>): (r: seq<Quota>)
    ensures |r| == |views| && forall i | 0 <= i < |views| :: r[i] == Cached(templates, views[i])
  {
    if views == [] then [] else [Cached(templates, views[0])] + CachedAll(templates, views[1..])
  }

  function Unseen(l: Listing, ref: string): Listing { l.(unseen := l.unseen + [ref]) }

  // One more instance that neither listing shows.
  function Noted(v: View, ref: string): View {
    v.(shown := Unseen(v.shown, ref), pending := if v.pending.Some? then Some(Unseen(v.pending.value, ref)) else None)
  }

  function NotedAll(views: seq<View>, ref: string): (r: seq<View>)
    ensures |r| == |views| && forall i | 0 <= i < |views| :: r[i] == Noted(views[i], ref)
  {
    if views == [] then [] else [Noted(views[0], ref)] + NotedAll(views[1..], ref)
  }

  function Cut(s: seq<string>, i: nat): seq<string>
    requires i < |s|
  {
    s[..i] + s[i + 1..]
  }

  function Step(templates: seq<ClusterTemplate>, n: Namespace, e: Event): Namespace {
    match e
    case Check(ref) =>
      if Judge(ref, templates, CachedAll(templates, n.views)) == Admitted
      then n.(flying := n.flying + [ref], views := NotedAll(n.views, ref))
      else n
    case Skip(ref) => n.(flying := n.flying + [ref], views := NotedAll(n.views, ref))
    case Land(i) =>
      if i < |n.flying| then n.(instances := n.instances + [n.flying[i]], flying := Cut(n.flying, i)) else n
    case Drop(i) => if i < |n.flying| then n.(flying := Cut(n.flying, i)) else n
    case Remove(i) => if i < |n.instances| then n.(instances := Cut(n.instances, i)) else n
    case List(q) =>
      if q < |n.views| then n.(views := n.views[q := n.views[q].(pending := Some(Listing(n.instances, n.flying)))])
        else n
    case Write(q) =>
      if q < |n.views| && n.views[q].pending.Some?
      then n.(views := n.views[q := n.views[q].(shown := n.views[q].pending.value, pending := None)])
      else n
  }

  function Run(templates: seq<ClusterTemplate>, n: Namespace, events: seq<Event>): Namespace
    decreases |events|
  {
    if events == [] then n else Run(templates, Step(templates, n, events[0]), events[1..])
  }

  // No cached status ever misses more than `k` of the instances that were let in.
  predicate Throttled(templates: seq<ClusterTemplate>, n: Namespace, events: seq<Event>, k: nat)
    decreases |events|
  {
    && (forall i | 0 <= i < |n.views| :: |n.views[i].shown.unseen| <= k)
    && (events != [] ==> Throttled(templates, Step(templates, n, events[0]), events[1..], k))
  }

  predicate CostsWithin(templates: seq<ClusterTemplate>, c: nat) {
    forall i | 0 <= i < |templates| && templates[i].cost.Some? :: 0 <= templates[i].cost.value <= c
  }

  ghost predicate WithinCount(spec: QuotaSpec, instances: seq<string>, name: string, excess: int) {
    forall k: nat | LastEntry(spec.allowed, k, name) && 0 < spec.allowed[k].count ::
      CountOf(instances, name) <= spec.allowed[k].count + excess
  }

  predicate WithinBudget(spec: QuotaSpec, templates: seq<ClusterTemplate>, instances: seq<string>, excess: int) {
    0 < spec.budget ==> Spend(spec.allowed, templates, instances) <= spec.budget + excess
  }

  // Within the quota, but for `over` instances of each template and `spend` of the budget.
  ghost predicate Within(spec: QuotaSpec, templates: seq<ClusterTemplate>, instances: seq<string>, over: int,
      spend: int) {
    (forall name :: WithinCount(spec, instances, name, over)) && WithinBudget(spec, templates, instances, spend)
  }

  // -------- sums over a list --------

  lemma {:induction false} SumsAppend(spec: QuotaSpec, templates: seq<ClusterTemplate>, a: seq<string>, b: seq<string>)
    ensures forall name :: CountOf(a + b, name) == CountOf(a, name) + CountOf(b, name)
    ensures Spend(spec.allowed, templates, a + b) ==
        Spend(spec.allowed, templates, a) + Spend(spec.allowed, templates, b)
  {
    if a == [] {
      assert a + b == b;
    } else {
      assert (a + b)[1..] == a[1..] + b;
      SumsAppend(spec, templates, a[1..], b);
    }
  }

  lemma {:induction false} PriceWithin(templates: seq<ClusterTemplate>, name: string, c: nat)
    requires CostsWithin(templates, c)
    ensures 0 <= Price(templates, name) <= c
  {
    if templates != [] {
      assert forall i | 0 <= i < |templates[1..]| :: templates[1..][i] == templates[i + 1];
      PriceWithin(templates[1..], name, c);
    }
  }

  // The cost that is checked is the cost that will be charged.
  lemma {:induction false} CheckedIsCharged(templates: seq<ClusterTemplate>, name: string, c: nat)
    requires CostsWithin(templates, c) && NamedIn(templates, name) && TemplateOf(templates, name).cost.Some?
    ensures Price(templates, name) == TemplateOf(templates, name).cost.value
  {
    if templates[0].name != name {
      StillNamed(templates, name);
      assert forall i | 0 <= i < |templates[1..]| :: templates[1..][i] == templates[i + 1];
      CheckedIsCharged(templates[1..], name, c);
    }
  }

  lemma {:induction false} SpendWithin(spec: QuotaSpec, templates: seq<ClusterTemplate>, instances: seq<string>, c: nat)
    requires CostsWithin(templates, c)
    ensures 0 <= Spend(spec.allowed, templates, instances) <= |instances| * c
  {
    if instances != [] {
      PriceWithin(templates, instances[0], c);
      SpendWithin(spec, templates, instances[1..], c);
      assert |instances| * c == c + |instances[1..]| * c;
    }
  }

  lemma {:induction false} CountIsBounded(instances: seq<string>, name: string)
    ensures CountOf(instances, name) <= |instances|
  {
    if instances != [] {
      CountIsBounded(instances[1..], name);
    }
  }

  lemma MulLe(a: nat, b: nat, c: nat)
    requires a <= b
    ensures a * c <= b * c
  {}

  // `a` has no more instances of any template than `b`, and costs no more.
  ghost predicate Fewer(spec: QuotaSpec, templates: seq<ClusterTemplate>, a: seq<string>, b: seq<string>) {
    && (forall name :: CountOf(a, name) <= CountOf(b, name))
    && Spend(spec.allowed, templates, a) <= Spend(spec.allowed, templates, b)
  }

  lemma CutIsFewer(spec: QuotaSpec, templates: seq<ClusterTemplate>, s: seq<string>, i: nat, c: nat)
    requires CostsWithin(templates, c) && i < |s|
    ensures Fewer(spec, templates, Cut(s, i), s) && Fewer(spec, templates, Cut(s, i) + [s[i]], s)
  {
    var a, x, b := s[..i], [s[i]], s[i + 1..];
    assert s == a + (x + b);
    SumsAppend(spec, templates, a, b);
    SumsAppend(spec, templates, a, x + b);
    SumsAppend(spec, templates, x, b);
    SumsAppend(spec, templates, a + b, x);
    SpendWithin(spec, templates, x, c);
  }

  lemma FewerAppend(spec: QuotaSpec, templates: seq<ClusterTemplate>, a: seq<string>, b: seq<string>, a': seq<string>,
      b': seq<string>)
    requires Fewer(spec, templates, a', a) && Fewer(spec, templates, b', b)
    ensures Fewer(spec, templates, a' + b', a + b)
  {
    SumsAppend(spec, templates, a, b);
    SumsAppend(spec, templates, a', b');
  }

  // -------- the invariant --------

  // All that are there or on their way.
  function All(n: Namespace): seq<string> { n.instances + n.flying }

  // They are at most those the listing shows and those it does not.
  ghost predicate Covers(spec: QuotaSpec, templates: seq<ClusterTemplate>, l: Listing, all: seq<string>) {
    Fewer(spec, templates, all, l.listed + l.unseen)
  }

  ghost predicate ViewInv(templates: seq<ClusterTemplate>, v: View, all: seq<string>, k: nat, c: nat) {
    && Covers(v.spec, templates, v.shown, all)
    && (v.pending.Some? ==> Covers(v.spec, templates, v.pending.value, all))
    && Within(v.spec, templates, all, k - 1, (k - 1) * c)
  }

  ghost predicate Inv(templates: seq<ClusterTemplate>, n: Namespace, k: nat, c: nat) {
    forall i | 0 <= i < |n.views| :: ViewInv(templates, n.views[i], All(n), k, c)
  }

  lemma FewerKeeps(templates: seq<ClusterTemplate>, v: View, a: seq<string>, b: seq<string>, k: nat, c: nat)
    requires ViewInv(templates, v, b, k, c) && Fewer(v.spec, templates, a, b)
    ensures ViewInv(templates, v, a, k, c)
  {
    hide Spend, CountOf;
    var over := k - 1;
    forall name ensures WithinCount(v.spec, a, name, over) {
      assert WithinCount(v.spec, b, name, over);
    }
  }

  // What an admission found in the cached status of one quota.
  ghost predicate FoundRoom(templates: seq<ClusterTemplate>, v: View, ref: string) {
    IsAllowed(v.spec.allowed, ref) ==>
      && (forall k: nat | LastEntry(v.spec.allowed, k, ref) && 0 < v.spec.allowed[k].count ::
            CountOf(v.shown.listed, ref) < v.spec.allowed[k].count)
      && (0 < v.spec.budget ==>
            Spend(v.spec.allowed, templates, v.shown.listed) + Price(templates, ref) <= v.spec.budget)
  }

  // No instance is charged less than it costs.
  lemma ChargedIsEnough(allowed: seq<Allowed>, templates: seq<ClusterTemplate>, instances: seq<string>, c: nat)
    requires CostsWithin(templates, c)
    ensures Spend(allowed, templates, instances) <= Accurate(allowed, templates, instances).spent
  {
    hide Spend, Price, CostsWithin, ChargedOnce, Accurate;
    forall i | 0 <= i < |instances| ensures 0 <= Price(templates, instances[i]) {
      PriceWithin(templates, instances[i], c);
    }
    PlainSumExactlyWhen(allowed, templates, instances);
    NoOverchargeExactlyWhen(allowed, templates, instances);
  }

  // A status accurate for its listing that has room shows that the listing has.
  lemma RoomIsReal(templates: seq<ClusterTemplate>, v: View, ct: ClusterTemplate, c: nat)
    requires HasRoom(Cached(templates, v), ct) && CostsWithin(templates, c)
    requires 0 < v.spec.budget && ct.cost.Some? ==> Price(templates, ct.name) == ct.cost.value
    ensures FoundRoom(templates, v, ct.name)
  {
    hide Price, Spend, CountOf, CostsWithin;
    ChargedIsEnough(v.spec.allowed, templates, v.shown.listed, c);
    hide Charged;
    var ref, q := ct.name, Cached(templates, v);
    forall k: nat | LastEntry(v.spec.allowed, k, ref) && 0 < v.spec.allowed[k].count
      ensures CountOf(v.shown.listed, ref) < v.spec.allowed[k].count
    {
      assert q.status.counts[k] == TemplateCount(ref, CountOf(v.shown.listed, ref));
      assert !Reached(q, ref, v.spec.allowed[k].count);
    }
  }

  lemma AdmittedFoundRoom(templates: seq<ClusterTemplate>, views: seq<View>, ref: string, i: nat, c: nat)
    requires i < |views| && CostsWithin(templates, c)
    requires Judge(ref, templates, CachedAll(templates, views)) == Admitted
    ensures FoundRoom(templates, views[i], ref)
  {
    hide Judge, HasRoom, FoundRoom, Cached, CostsWithin, Price;
    var v, quotas := views[i], CachedAll(templates, views);
    AdmittedExactlyWhen(ref, templates, quotas);
    var t: nat :| FirstNamed(templates, t, ref) &&
      (quotas == [] || ((forall q | q in quotas :: HasRoom(q, templates[t])) && SomeAllow(quotas, ref)));
    assert quotas[i] == Cached(templates, v) && quotas[i] in quotas;
    TemplateByPlace(templates, t, ref);
    if templates[t].cost.Some? {
      CheckedIsCharged(templates, ref, c);
    }
    RoomIsReal(templates, v, templates[t], c);
  }

  lemma CountAfterAdmission(templates: seq<ClusterTemplate>, v: View, all: seq<string>, ref: string, name: string,
      k: nat, c: nat)
    requires ViewInv(templates, v, all, k, c) && FoundRoom(templates, v, ref) && |v.shown.unseen| < k
    ensures WithinCount(v.spec, all + [ref], name, k - 1)
  {
    SumsAppend(v.spec, templates, all, [ref]);
    SumsAppend(v.spec, templates, v.shown.listed, v.shown.unseen);
    assert CountOf([ref], name) == if name == ref then 1 else 0 by {
      assert [ref][1..] == [];
    }
    hide Spend, CountOf;
    assert WithinCount(v.spec, all, name, k - 1);
    assert CountOf(all, name) <= CountOf(v.shown.listed + v.shown.unseen, name);
    CountIsBounded(v.shown.unseen, name);
  }

  lemma BudgetAfterAdmission(templates: seq<ClusterTemplate>, v: View, all: seq<string>, ref: string, k: nat, c: nat)
    requires ViewInv(templates, v, all, k, c) && FoundRoom(templates, v, ref) && |v.shown.unseen| < k
        && CostsWithin(templates, c)
    ensures WithinBudget(v.spec, templates, all + [ref], (k - 1) * c)
  {
    SumsAppend(v.spec, templates, all, [ref]);
    SumsAppend(v.spec, templates, v.shown.listed, v.shown.unseen);
    assert Spend(v.spec.allowed, templates, [ref]) ==
      if IsAllowed(v.spec.allowed, ref) then Price(templates, ref) else 0 by {
      assert [ref][1..] == [];
    }
    hide Spend, CountOf, IsAllowed;
    SpendWithin(v.spec, templates, v.shown.unseen, c);
    MulLe(|v.shown.unseen|, k - 1, c);
  }

  lemma AdmissionKeeps(templates: seq<ClusterTemplate>, v: View, all: seq<string>, ref: string, k: nat, c: nat)
    requires ViewInv(templates, v, all, k, c) && FoundRoom(templates, v, ref) && |v.shown.unseen| < k
        && CostsWithin(templates, c)
    ensures ViewInv(templates, Noted(v, ref), all + [ref], k, c)
  {
    var over := k - 1;
    forall name ensures WithinCount(v.spec, all + [ref], name, over) {
      CountAfterAdmission(templates, v, all, ref, name, k, c);
    }
    BudgetAfterAdmission(templates, v, all, ref, k, c);
    StillCovers(v.spec, templates, v.shown, all, ref);
    if v.pending.Some? {
      StillCovers(v.spec, templates, v.pending.value, all, ref);
    }
    hide Covers, WithinCount, WithinBudget, FoundRoom, CostsWithin;
  }

  lemma StillCovers(spec: QuotaSpec, templates: seq<ClusterTemplate>, l: Listing, all: seq<string>, ref: string)
    requires Covers(spec, templates, l, all)
    ensures Covers(spec, templates, Unseen(l, ref), all + [ref])
  {
    hide Spend, CountOf;
    FewerAppend(spec, templates, l.listed + l.unseen, [ref], all, [ref]);
    assert l.listed + (l.unseen + [ref]) == (l.listed + l.unseen) + [ref];
  }

  lemma CheckKeeps(templates: seq<ClusterTemplate>, n: Namespace, ref: string, k: nat, t: nat, c: nat)
    requires CostsWithin(templates, c) && Inv(templates, n, k, c)
    requires t <= k && Throttled(templates, Step(templates, n, Check(ref)), [], t)
    ensures Inv(templates, Step(templates, n, Check(ref)), k, c)
  {
    var m := Step(templates, n, Check(ref));
    hide Judge, ViewInv, CostsWithin, FoundRoom;
    if m != n {
      assert All(m) == All(n) + [ref];
      forall i | 0 <= i < |m.views| ensures ViewInv(templates, m.views[i], All(m), k, c) {
        AdmittedFoundRoom(templates, n.views, ref, i, c);
        assert |m.views[i].shown.unseen| <= t;
        AdmissionKeeps(templates, n.views[i], All(n), ref, k, c);
      }
    }
  }

  // One that is not checked may exceed every quota by one more, and its cost.
  lemma SkipKeeps(templates: seq<ClusterTemplate>, n: Namespace, ref: string, k: nat, c: nat)
    requires CostsWithin(templates, c) && Inv(templates, n, k, c)
    ensures Inv(templates, Step(templates, n, Skip(ref)), k + 1, c)
  {
    hide ViewInv, CostsWithin;
    var m := Step(templates, n, Skip(ref));
    assert All(m) == All(n) + [ref];
    forall i | 0 <= i < |m.views| ensures ViewInv(templates, m.views[i], All(m), k + 1, c) {
      assert ViewInv(templates, n.views[i], All(n), k, c);
      OneMoreKeeps(templates, n.views[i], All(n), ref, k, c);
    }
  }

  lemma OneMoreKeeps(templates: seq<ClusterTemplate>, v: View, all: seq<string>, ref: string, k: nat, c: nat)
    requires CostsWithin(templates, c) && ViewInv(templates, v, all, k, c)
    ensures ViewInv(templates, Noted(v, ref), all + [ref], k + 1, c)
  {
    SumsAppend(v.spec, templates, all, [ref]);
    SpendWithin(v.spec, templates, [ref], c);
    StillCovers(v.spec, templates, v.shown, all, ref);
    if v.pending.Some? {
      StillCovers(v.spec, templates, v.pending.value, all, ref);
    }
    hide Spend, CountOf, Covers;
    forall name ensures WithinCount(v.spec, all + [ref], name, k) {
      assert WithinCount(v.spec, all, name, k - 1);
      CountIsBounded([ref], name);
    }
    assert (k - 1) * c + c == k * c;
    assert WithinBudget(v.spec, templates, all + [ref], k * c);
  }

  // How many of the events let an instance in unchecked.
  function Skips(events: seq<Event>): nat {
    if events == [] then 0 else (if events[0].Skip? then 1 else 0) + Skips(events[1..])
  }

  // Landing, dropping and removing: the views stay, and nothing becomes more.
  lemma LessKeeps(templates: seq<ClusterTemplate>, n: Namespace, e: Event, k: nat, c: nat)
    requires CostsWithin(templates, c) && Inv(templates, n, k, c) && (e.Land? || e.Drop? || e.Remove?)
    ensures Inv(templates, Step(templates, n, e), k, c)
  {
    var m := Step(templates, n, e);
    hide ViewInv, CostsWithin, Spend, CountOf;
    forall i | 0 <= i < |m.views| ensures ViewInv(templates, m.views[i], All(m), k, c) {
      var spec := n.views[i].spec;
      LessIsFewer(spec, templates, n, e, c);
      FewerKeeps(templates, n.views[i], All(m), All(n), k, c);
    }
  }

  lemma LessIsFewer(spec: QuotaSpec, templates: seq<ClusterTemplate>, n: Namespace, e: Event, c: nat)
    requires CostsWithin(templates, c) && (e.Land? || e.Drop? || e.Remove?)
    ensures Fewer(spec, templates, All(Step(templates, n, e)), All(n))
  {
    hide Spend, CountOf, CostsWithin;
    var m := Step(templates, n, e);
    match e {
      case Land(i) =>
        if i < |n.flying| {
          var x := [n.flying[i]];
          CutIsFewer(spec, templates, n.flying, i, c);
          FewerAppend(spec, templates, n.instances, n.flying, n.instances, Cut(n.flying, i) + x);
          LandedIsSame(spec, templates, n.instances, x, Cut(n.flying, i));
        }
      case Drop(i) =>
        if i < |n.flying| {
          CutIsFewer(spec, templates, n.flying, i, c);
          FewerAppend(spec, templates, n.instances, n.flying, n.instances, Cut(n.flying, i));
        }
      case Remove(i) =>
        if i < |n.instances| {
          CutIsFewer(spec, templates, n.instances, i, c);
          FewerAppend(spec, templates, n.instances, n.flying, Cut(n.instances, i), n.flying);
        }
    }
  }

  lemma LandedIsSame(spec: QuotaSpec, templates: seq<ClusterTemplate>, a: seq<string>, x: seq<string>, b: seq<string>)
    ensures Fewer(spec, templates, (a + x) + b, a + (b + x))
  {
    hide Spend, CountOf;
    SumsAppend(spec, templates, a, x);
    SumsAppend(spec, templates, a + x, b);
    SumsAppend(spec, templates, b, x);
    SumsAppend(spec, templates, a, b + x);
  }

  // Either half of a refresh: what is there is what it was.
  lemma RefreshKeeps(templates: seq<ClusterTemplate>, n: Namespace, e: Event, k: nat, c: nat)
    requires Inv(templates, n, k, c) && (e.List? || e.Write?)
    ensures Inv(templates, Step(templates, n, e), k, c)
  {
    hide Spend, CountOf, Within;
    var m := Step(templates, n, e);
    assert All(m) == All(n);
    forall i | 0 <= i < |m.views| ensures ViewInv(templates, m.views[i], All(m), k, c) {
      assert ViewInv(templates, n.views[i], All(n), k, c);
    }
  }

  lemma {:induction false} RunKeeps(templates: seq<ClusterTemplate>, n: Namespace, events: seq<Event>, k: nat, t: nat,
      c: nat)
    requires CostsWithin(templates, c) && Inv(templates, n, k, c)
    requires t <= k && Throttled(templates, n, events, t)
    ensures Inv(templates, Run(templates, n, events), k + Skips(events), c)
    ensures SameSpecs(n, Run(templates, n, events))
    decreases |events|
  {
    hide Inv, CostsWithin, Judge;
    if events != [] {
      match events[0] {
        case Check(ref) => CheckKeeps(templates, n, ref, k, t, c);
        case Skip(ref) => SkipKeeps(templates, n, ref, k, c);
        case Land(i) => LessKeeps(templates, n, events[0], k, c);
        case Drop(i) => LessKeeps(templates, n, events[0], k, c);
        case Remove(i) => LessKeeps(templates, n, events[0], k, c);
        case List(q) => RefreshKeeps(templates, n, events[0], k, c);
        case Write(q) => RefreshKeeps(templates, n, events[0], k, c);
      }
      RunKeeps(templates, Step(templates, n, events[0]), events[1..], if events[0].Skip? then k + 1 else k, t, c);
    }
  }

  ghost predicate SameSpecs(a: Namespace, b: Namespace) {
    |a.views| == |b.views| && forall i | 0 <= i < |a.views| :: a.views[i].spec == b.views[i].spec
  }

  // Every status is up to date, nothing is on its way, and every quota is kept.
  ghost predicate Settled(templates: seq<ClusterTemplate>, n: Namespace) {
    n.flying == [] && forall i | 0 <= i < |n.views| ::
      n.views[i].shown == Listing(n.instances, []) && n.views[i].pending == None
      && Within(n.views[i].spec, templates, n.instances, 0, 0)
  }

  lemma SettledInv(templates: seq<ClusterTemplate>, n: Namespace, k: nat, c: nat)
    requires 1 <= k && Settled(templates, n)
    ensures Inv(templates, n, k, c)
  {
    hide Spend, CountOf;
    var over := k - 1;
    assert All(n) == n.instances && n.instances + [] == n.instances;
    assert 0 <= over * c;
    forall i | 0 <= i < |n.views| ensures ViewInv(templates, n.views[i], All(n), k, c) {
      var v := n.views[i];
      forall name ensures WithinCount(v.spec, All(n), name, over) {
        assert WithinCount(v.spec, n.instances, name, 0);
      }
    }
  }

  // The bound, as an excess over the quota.
  lemma BoundedExcess(templates: seq<ClusterTemplate>, start: Namespace, events: seq<Event>, k: nat, c: nat, i: nat)
    requires 1 <= k && CostsWithin(templates, c) && Settled(templates, start)
    requires Throttled(templates, start, events, k) && i < |start.views|
    ensures var over := k - 1 + Skips(events);
      Within(start.views[i].spec, templates, Run(templates, start, events).instances, over, over * c)
  {
    SettledInv(templates, start, k, c);
    RunKeeps(templates, start, events, k, k, c);
    hide Run, Throttled, Settled, Skips, ViewInv, Within, CountOf, Spend;
    var n, j := Run(templates, start, events), k + Skips(events);
    assert ViewInv(templates, n.views[i], All(n), j, c);
    StoredAreWithin(templates, n, i, j, c);
    assert j - 1 == k - 1 + Skips(events);
  }

  lemma StoredAreWithin(templates: seq<ClusterTemplate>, n: Namespace, i: nat, k: nat, c: nat)
    requires i < |n.views| && ViewInv(templates, n.views[i], All(n), k, c) && CostsWithin(templates, c)
    ensures Within(n.views[i].spec, templates, n.instances, k - 1, (k - 1) * c)
  {
    hide CountOf, Spend, Covers;
    var spec, over, spend := n.views[i].spec, k - 1, (k - 1) * c;
    SumsAppend(spec, templates, n.instances, n.flying);
    SpendWithin(spec, templates, n.flying, c);
    forall name ensures WithinCount(spec, n.instances, name, over) {
      assert WithinCount(spec, All(n), name, over);
    }
    assert WithinBudget(spec, templates, All(n), spend);
  }

  lemma WithinMeans(spec: QuotaSpec, templates: seq<ClusterTemplate>, instances: seq<string>, over: int, spend: int)
    requires Within(spec, templates, instances, over, spend)
    ensures forall e: nat, name | LastEntry(spec.allowed, e, name) && 0 < spec.allowed[e].count ::
        multiset(instances)[name] <= spec.allowed[e].count + over
    ensures 0 < spec.budget ==> Spend(spec.allowed, templates, instances) <= spec.budget + spend
  {
    hide CountOf, Spend;
    forall e: nat, name | LastEntry(spec.allowed, e, name) && 0 < spec.allowed[e].count
      ensures multiset(instances)[name] <= spec.allowed[e].count + over
    {
      assert WithinCount(spec, instances, name, over);
      CountIsMultiplicity(instances, name);
    }
  }

  /** However instances come and go, and however the admission checks, the stores and the
      two halves of the refreshes interleave: with any quotas, costs between 0 and
      `c`, from accurate statuses within limits, and no cached status ever missing more
      than `k` of the instances let in, no count exceeds the maximum of any quota by more
      than k - 1 and the spend no budget by more than (k - 1) * c, plus one and `c` for
      each instance that came in unchecked. A quota that lists a
      template twice is charged twice for it, which only makes the check stricter. */
  lemma OvershootIsBounded(templates: seq<ClusterTemplate>, start: Namespace, events: seq<Event>, k: nat, c: nat,
      i: nat)
    requires 1 <= k && CostsWithin(templates, c) && Settled(templates, start)
    requires Throttled(templates, start, events, k) && i < |start.views|
    ensures var n, spec, over := Run(templates, start, events), start.views[i].spec, k - 1 + Skips(events);
      && (forall e: nat, name | LastEntry(spec.allowed, e, name) && 0 < spec.allowed[e].count ::
            multiset(n.instances)[name] <= spec.allowed[e].count + over)
      && (0 < spec.budget ==> Spend(spec.allowed, templates, n.instances) <= spec.budget + over * c)
  {
    hide Run, Throttled, Settled, Skips, Within, Spend;
    BoundedExcess(templates, start, events, k, c, i);
    var over := k - 1 + Skips(events);
    WithinMeans(start.views[i].spec, templates, Run(templates, start, events).instances, over, over * c);
  }

  /** When no status ever misses more than one of them, the quotas are kept exactly, but for
      the instances that came in unchecked. */
  lemma ExactWhenRefreshedEachTime(templates: seq<ClusterTemplate>, start: Namespace, events: seq<Event>, c: nat,
      i: nat)
    requires CostsWithin(templates, c) && Settled(templates, start)
    requires Throttled(templates, start, events, 1) && i < |start.views|
    ensures Within(start.views[i].spec, templates, Run(templates, start, events).instances, Skips(events),
        Skips(events) * c)
  {
    hide Within, Run, Throttled, Settled, Skips;
    BoundedExcess(templates, start, events, 1, c, i);
    assert 1 - 1 + Skips(events) == Skips(events);
  }

  // -------- the bound is reached --------

  function Creates(ref: string, k: nat): seq<Event> {
    if k == 0 then [] else [Check(ref), Land(0)] + Creates(ref, k - 1)
  }

  lemma {:induction false} RunAppend(templates: seq<ClusterTemplate>, n: Namespace, a: seq<Event>, b: seq<Event>)
    ensures Run(templates, n, a + b) == Run(templates, Run(templates, n, a), b)
    ensures forall k: nat :: Throttled(templates, n, a, k) && Throttled(templates, Run(templates, n, a), b, k) ==>
      Throttled(templates, n, a + b, k)
    decreases |a|
  {
    hide Step;
    if a == [] {
      assert a + b == b;
    } else {
      assert (a + b)[0] == a[0] && (a + b)[1..] == a[1..] + b;
      RunAppend(templates, Step(templates, n, a[0]), a[1..], b);
    }
  }

  // The namespace with `k` more instances of `ref`, which no listing of its one quota shows.
  function Grown(n: Namespace, ref: string, k: nat): Namespace
    decreases k
  {
    if k == 0 then n else Grown(n.(instances := n.instances + [ref], views := NotedAll(n.views, ref)), ref, k - 1)
  }

  lemma OneCreated(templates: seq<ClusterTemplate>, n: Namespace, ref: string)
    requires n.flying == [] && Judge(ref, templates, CachedAll(templates, n.views)) == Admitted
    ensures Run(templates, n, [Check(ref), Land(0)]) == Grown(n, ref, 1)
    ensures forall k: nat :: Throttled(templates, Grown(n, ref, 1), [], k) ==>
        Throttled(templates, n, [Check(ref), Land(0)], k)
  {
    hide Judge;
    var a := Step(templates, n, Check(ref));
    var b := Step(templates, a, Land(0));
    assert a.flying == [ref] && Cut([ref], 0) == [];
    assert [Check(ref), Land(0)][1..] == [Land(0)] && [Land(0)][1..] == [];
    assert Run(templates, a, [Land(0)]) == Run(templates, b, []);
    assert Grown(b, ref, 0) == b;
    forall k: nat | Throttled(templates, b, [], k) ensures Throttled(templates, n, [Check(ref), Land(0)], k) {
      assert b.views == a.views;
      assert Throttled(templates, a, [Land(0)], k);
      assert forall i | 0 <= i < |n.views| :: |n.views[i].shown.unseen| < |a.views[i].shown.unseen|;
    }
  }

  lemma {:induction false} SameCache(templates: seq<ClusterTemplate>, views: seq<View>, ref: string)
    ensures CachedAll(templates, NotedAll(views, ref)) == CachedAll(templates, views)
  {
    if views != [] {
      SameCache(templates, views[1..], ref);
    }
  }

  lemma {:induction false} CreatesRun(templates: seq<ClusterTemplate>, n: Namespace, ref: string, k: nat, t: nat)
    requires n.flying == [] && Judge(ref, templates, CachedAll(templates, n.views)) == Admitted
    requires forall i | 0 <= i < |n.views| :: |n.views[i].shown.unseen| + k <= t
    ensures Run(templates, n, Creates(ref, k)) == Grown(n, ref, k)
    ensures Throttled(templates, n, Creates(ref, k), t)
    decreases k
  {
    hide Judge, Run;
    if k == 0 {
      assert Run(templates, n, []) == n by { NothingRuns(templates, n); }
    } else {
      var m := Grown(n, ref, 1);
      assert m == Grown(n.(instances := n.instances + [ref], views := NotedAll(n.views, ref)), ref, 0);
      OneCreated(templates, n, ref);
      SameCache(templates, n.views, ref);
      CreatesRun(templates, m, ref, k - 1, t);
      RunAppend(templates, n, [Check(ref), Land(0)], Creates(ref, k - 1));
    }
  }

  lemma NothingRuns(templates: seq<ClusterTemplate>, n: Namespace)
    ensures Run(templates, n, []) == n
  {}

  lemma {:induction false} GrownShows(n: Namespace, ref: string, k: nat)
    ensures var m := Grown(n, ref, k);
      && CountOf(m.instances, ref) == CountOf(n.instances, ref) + k
      && m.flying == n.flying && |m.views| == |n.views|
      && forall i | 0 <= i < |n.views| ::
           && m.views[i].spec == n.views[i].spec && m.views[i].shown.listed == n.views[i].shown.listed
           && |m.views[i].shown.unseen| == |n.views[i].shown.unseen| + k
           && m.views[i].pending.Some? == n.views[i].pending.Some?
           && (n.views[i].pending.Some? ==>
                 && m.views[i].pending.value.listed == n.views[i].pending.value.listed
                 && |m.views[i].pending.value.unseen| == |n.views[i].pending.value.unseen| + k)
    decreases k
  {
    if k != 0 {
      SumsAppend(QuotaSpec(0, []), [], n.instances, [ref]);
      assert CountOf([ref], ref) == 1;
      GrownShows(n.(instances := n.instances + [ref], views := NotedAll(n.views, ref)), ref, k - 1);
    }
  }

  /** The bound is met, and a refresh does not help against the instances that come between
      its two halves: whenever one more instance would be let in, `a` come while the
      refresh is under way and `b` after it, and a count one short of its maximum ends up
      a + b - 1 over it. */
  lemma BoundIsReached(templates: seq<ClusterTemplate>, spec: QuotaSpec, instances: seq<string>, ref: string, e: nat,
      a: nat, b: nat)
    requires Judge(ref, templates, CachedAll(templates, [View(spec, Listing(instances, []), None)])) == Admitted
    requires LastEntry(spec.allowed, e, ref) && multiset(instances)[ref] == spec.allowed[e].count - 1
    ensures var start := Namespace(instances, [], [View(spec, Listing(instances, []), None)]);
      var events := ([List(0)] + Creates(ref, a)) + ([Write(0)] + Creates(ref, b));
      && Throttled(templates, start, events, a + b)
      && multiset(Run(templates, start, events).instances)[ref] == spec.allowed[e].count + a + b - 1
  {
    hide Judge, Run, Throttled, Accurate;
    CountIsMultiplicity(instances, ref);
    var start := Namespace(instances, [], [View(spec, Listing(instances, []), None)]);
    var n2 := Grown(Step(templates, start, List(0)), ref, a);
    UnderWay(templates, start, ref, a, a + b);
    AfterWrite(templates, n2, ref, b, a + b);
    RunAppend(templates, start, [List(0)] + Creates(ref, a), [Write(0)] + Creates(ref, b));
    CountIsMultiplicity(Run(templates, start,
      ([List(0)] + Creates(ref, a)) + ([Write(0)] + Creates(ref, b))).instances, ref);
  }

  // The first half of the refresh, and those that come in before the second.
  lemma UnderWay(templates: seq<ClusterTemplate>, n: Namespace, ref: string, a: nat, t: nat)
    requires |n.views| == 1 && n.flying == [] && n.views[0].shown == Listing(n.instances, []) && a <= t
    requires Judge(ref, templates, CachedAll(templates, n.views)) == Admitted
    ensures var m := Grown(Step(templates, n, List(0)), ref, a);
      && Run(templates, n, [List(0)] + Creates(ref, a)) == m
      && Throttled(templates, n, [List(0)] + Creates(ref, a), t)
      && CountOf(m.instances, ref) == CountOf(n.instances, ref) + a
      && m.flying == [] && |m.views| == 1 && m.views[0].spec == n.views[0].spec
      && m.views[0].pending.Some? && m.views[0].pending.value.listed == n.instances
          && |m.views[0].pending.value.unseen| == a
      && |m.views[0].shown.unseen| == a
  {
    hide Judge, Run, Throttled, Accurate, CountOf;
    var n1 := Step(templates, n, List(0));
    OneStep(templates, n, List(0), t);
    SameViewsSameCache(templates, n.views, n1.views);
    CreatesRun(templates, n1, ref, a, t);
    GrownShows(n1, ref, a);
    RunAppend(templates, n, [List(0)], Creates(ref, a));
  }

  // Its second half brings the status no further, and those that come in after it.
  lemma AfterWrite(templates: seq<ClusterTemplate>, n: Namespace, ref: string, b: nat, t: nat)
    requires |n.views| == 1 && n.flying == [] && n.views[0].pending.Some? && |n.views[0].shown.unseen| <= t
    requires |n.views[0].pending.value.unseen| + b <= t
    requires Judge(ref, templates,
        CachedAll(templates, [View(n.views[0].spec, Listing(n.views[0].pending.value.listed, []), None)])) == Admitted
    ensures CountOf(Run(templates, n, [Write(0)] + Creates(ref, b)).instances, ref) == CountOf(n.instances, ref) + b
    ensures Throttled(templates, n, [Write(0)] + Creates(ref, b), t)
  {
    hide Judge, Run, Throttled, Accurate, CountOf;
    var m := Step(templates, n, Write(0));
    OneStep(templates, n, Write(0), t);
    SameViewsSameCache(templates, [View(n.views[0].spec, Listing(n.views[0].pending.value.listed, []), None)], m.views);
    CreatesRun(templates, m, ref, b, t);
    GrownShows(m, ref, b);
    RunAppend(templates, n, [Write(0)], Creates(ref, b));
  }

  lemma SameViewsSameCache(templates: seq<ClusterTemplate>, a: seq<View>, b: seq<View>)
    requires |a| == |b| == 1 && a[0].spec == b[0].spec && a[0].shown.listed == b[0].shown.listed
    ensures CachedAll(templates, a) == CachedAll(templates, b)
  {
    hide Accurate;
  }

  lemma OneStep(templates: seq<ClusterTemplate>, n: Namespace, e: Event, k: nat)
    requires forall i | 0 <= i < |n.views| :: |n.views[i].shown.unseen| <= k
    requires forall i | 0 <= i < |Step(templates, n, e).views| :: |Step(templates, n, e).views[i].shown.unseen| <= k
    ensures Run(templates, n, [e]) == Step(templates, n, e) && Throttled(templates, n, [e], k)
  {
    hide Step;
    assert [e][1..] == [];
    NothingRuns(templates, Step(templates, n, e));
  }
}
