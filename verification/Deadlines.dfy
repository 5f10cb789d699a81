/** The two deadlines of an instance: the time to live its quotas give it, and the window
    in which a failing login to the new cluster counts as pending. */
module Deadlines {
  import opened Conditions
  import Quotas
  import opened Hub
  import opened Lifecycle
  import opened Passes
  import opened HubInvariants
  import opened Deletion
  import opened Runs

  // -------- time to live --------

  // The time to live in the first entry for the template.
  function FirstEntryTtl(allowed: seq<Quotas.Allowed>, ref: string): Option<int> {
    if allowed == [] then None
    else if allowed[0].name == ref then allowed[0].deleteAfter
    else FirstEntryTtl(allowed[1..], ref)
  }

  // The last quota whose first entry for the template has one.
  function Ttl(quotas: seq<Quotas.QuotaSpec>, ref: string): Option<int> {
    if quotas == [] then None
    else
      var last := FirstEntryTtl(quotas[|quotas| - 1].allowed, ref);
      if last.Some? then last else Ttl(quotas[..|quotas| - 1], ref)
  }

  // Entry `j` is the first one for the template.
  predicate FirstEntry(allowed: seq<Quotas.Allowed>, j: nat, ref: string) {
    j < |allowed| && allowed[j].name == ref && forall i | 0 <= i < j :: allowed[i].name != ref
  }

  // The quota's first entry for the template, if it has one, sets this time to live.
  predicate Gives(q: Quotas.QuotaSpec, ref: string, d: int) {
    exists j | 0 <= j < |q.allowed| :: FirstEntry(q.allowed, j, ref) && q.allowed[j].deleteAfter == Some(d)
  }

  predicate GivesNone(q: Quotas.QuotaSpec, ref: string) {
    forall j | 0 <= j < |q.allowed| && FirstEntry(q.allowed, j, ref) :: q.allowed[j].deleteAfter == None
  }

  // The time to live `d` is in force: a quota gives it, and none after that gives another.
  predicate InForce(quotas: seq<Quotas.QuotaSpec>, ref: string, d: int) {
    exists k | 0 <= k < |quotas| :: Gives(quotas[k], ref, d) && forall i | k < i < |quotas| :: GivesNone(quotas[i], ref)
  }

  lemma {:induction false} EntryTtlByPlace(q: Quotas.QuotaSpec, allowed: seq<Quotas.Allowed>, ref: string)
    requires q.allowed == allowed
    ensures FirstEntryTtl(allowed, ref) == None <==> GivesNone(q, ref)
    ensures forall d :: FirstEntryTtl(allowed, ref) == Some(d) <==> Gives(q, ref, d)
    decreases |allowed|
  {
    if allowed != [] {
      var rest := q.(allowed := allowed[1..]);
      EntryTtlByPlace(rest, allowed[1..], ref);
      assert forall j: nat | j < |rest.allowed| :: rest.allowed[j] == allowed[j + 1];
      if allowed[0].name == ref {
        assert FirstEntry(allowed, 0, ref);
      } else {
        assert forall j: nat | j < |rest.allowed| ::
          FirstEntry(rest.allowed, j, ref) <==> FirstEntry(allowed, j + 1, ref);
        LaterEntry(q, rest, ref);
      }
    }
  }

  lemma LaterEntry(q: Quotas.QuotaSpec, rest: Quotas.QuotaSpec, ref: string)
    requires q.allowed != [] && rest.allowed == q.allowed[1..] && q.allowed[0].name != ref
    requires forall j: nat | j < |rest.allowed| ::
        FirstEntry(rest.allowed, j, ref) <==> FirstEntry(q.allowed, j + 1, ref)
    ensures GivesNone(q, ref) <==> GivesNone(rest, ref)
    ensures forall d :: Gives(q, ref, d) <==> Gives(rest, ref, d)
  {
    assert forall j: nat | j < |rest.allowed| :: rest.allowed[j] == q.allowed[j + 1];
    if GivesNone(rest, ref) {
      forall j | 0 <= j < |q.allowed| && FirstEntry(q.allowed, j, ref) ensures q.allowed[j].deleteAfter == None {
        assert FirstEntry(rest.allowed, j - 1, ref);
      }
    }
    forall d ensures Gives(q, ref, d) <==> Gives(rest, ref, d) {
      if Gives(q, ref, d) {
        var j :| 0 <= j < |q.allowed| && FirstEntry(q.allowed, j, ref) && q.allowed[j].deleteAfter == Some(d);
        assert FirstEntry(rest.allowed, j - 1, ref);
      }
      if Gives(rest, ref, d) {
        var j :| 0 <= j < |rest.allowed| && FirstEntry(rest.allowed, j, ref) && rest.allowed[j].deleteAfter == Some(d);
        assert FirstEntry(q.allowed, j + 1, ref);
      }
    }
  }

  /** The time to live, entry by entry: there is none exactly when no quota's first entry for
      the template sets one; otherwise it is that of the last quota whose first entry does. */
  lemma {:induction false} TtlByEntries(quotas: seq<Quotas.QuotaSpec>, ref: string)
    ensures Ttl(quotas, ref) == None <==> forall i | 0 <= i < |quotas| :: GivesNone(quotas[i], ref)
    ensures forall d :: Ttl(quotas, ref) == Some(d) <==> InForce(quotas, ref, d)
  {
    hide Gives, GivesNone, FirstEntryTtl;
    if quotas != [] {
      var n := |quotas| - 1;
      var rest := quotas[..n];
      TtlByEntries(rest, ref);
      EntryTtlByPlace(quotas[n], quotas[n].allowed, ref);
      assert forall i | 0 <= i < n :: rest[i] == quotas[i];
      forall d ensures Ttl(quotas, ref) == Some(d) <==> InForce(quotas, ref, d) {
        if Gives(quotas[n], ref, d) {
          assert InForce(quotas, ref, d);
        } else if GivesNone(quotas[n], ref) {
          LaterGivesNone(quotas, ref, d);
        } else {
          OnlyTheLast(quotas, ref, d);
        }
      }
    }
  }

  lemma LaterGivesNone(quotas: seq<Quotas.QuotaSpec>, ref: string, d: int)
    requires quotas != [] && GivesNone(quotas[|quotas| - 1], ref) && !Gives(quotas[|quotas| - 1], ref, d)
    ensures InForce(quotas, ref, d) <==> InForce(quotas[..|quotas| - 1], ref, d)
  {
    hide Gives, GivesNone;
    var n := |quotas| - 1;
    var rest := quotas[..n];
    assert forall i | 0 <= i < n :: rest[i] == quotas[i];
    if InForce(quotas, ref, d) {
      var k :| 0 <= k < |quotas| && Gives(quotas[k], ref, d)
        && forall i | k < i < |quotas| :: GivesNone(quotas[i], ref);
      assert Gives(rest[k], ref, d);
    }
    if InForce(rest, ref, d) {
      var k :| 0 <= k < n && Gives(rest[k], ref, d) && forall i | k < i < n :: GivesNone(rest[i], ref);
      assert Gives(quotas[k], ref, d) && forall i | k < i < |quotas| :: GivesNone(quotas[i], ref);
    }
  }

  lemma OnlyTheLast(quotas: seq<Quotas.QuotaSpec>, ref: string, d: int)
    requires quotas != [] && !GivesNone(quotas[|quotas| - 1], ref) && !Gives(quotas[|quotas| - 1], ref, d)
    ensures !InForce(quotas, ref, d)
  {
    hide Gives, GivesNone;
  }

  datatype Decision = Keep | Requeue(after: int) | Delete

  // What autoDelete decides at a moment.
  function Decide(ttl: Option<int>, created: int, now: int): Decision {
    if ttl == None then Keep
    else if created + ttl.value < now then Delete
    else Requeue(created + ttl.value - now)
  }

  /** autoDelete. */
  method AutoDelete(quotas: seq<Quotas.QuotaSpec>, ref: string, created: int, now: int) returns (d: Decision)
    ensures d == Decide(Ttl(quotas, ref), created, now)
    ensures d == Keep <==> forall i | 0 <= i < |quotas| :: GivesNone(quotas[i], ref)
    ensures forall t | InForce(quotas, ref, t) :: d == if created + t < now then Delete else Requeue(created + t - now)
  {
    TtlByEntries(quotas, ref);
    hide GivesNone, InForce;
    var deleteAfter: Option<int> := None;
    for i := 0 to |quotas|
      invariant deleteAfter == Ttl(quotas[..i], ref)
    {
      assert quotas[..i + 1][..i] == quotas[..i];
      var allowed := quotas[i].allowed;
      ghost var before := deleteAfter;
      var j := 0;
      while j < |allowed|
        invariant 0 <= j <= |allowed|
        invariant deleteAfter == before
        invariant FirstEntryTtl(allowed, ref) == FirstEntryTtl(allowed[j..], ref)
      {
        assert allowed[j..][0] == allowed[j] && allowed[j..][1..] == allowed[j + 1..];
        if allowed[j].name == ref {
          if allowed[j].deleteAfter.Some? {
            deleteAfter := allowed[j].deleteAfter;
          }
          break;
        }
        j := j + 1;
      }
      assert deleteAfter == if FirstEntryTtl(allowed, ref).Some? then FirstEntryTtl(allowed, ref) else before;
    }
    assert quotas[..|quotas|] == quotas;
    if deleteAfter == None {
      return Keep;
    }
    if created + deleteAfter.value < now {
      return Delete;
    }
    d := Requeue(created + deleteAfter.value - now);
  }

  // -------- time to live over a life --------

  // A look is one reconcile with what autoDelete, which comes first in it, reads and does:
  // the quotas, whether listing them works, and the outcome of the deletion if it comes to one.
  datatype Moment =
    | Look(env: Env, recorded: bool, quotas: seq<Quotas.QuotaSpec>, listed: bool, deletion: Outcome)
    | Happens(event: Event)

  // The template an instance is made of, and when it was created.
  datatype Birth = Birth(ref: string, created: int)

  // An instance that is being deleted is not looked at. A listing or deletion that fails
  // ends the pass before it has begun; after a deletion that works the pass goes on, but
  // its status write is refused, since the instance is no longer the one it read.
  function EventsOf(b: Birth, m: Moment, deleting: bool): seq<Event> {
    match m
    case Happens(e) => if e.Reconcile? then [] else [e]
    case Look(env, recorded, quotas, listed, deletion) =>
      if deleting then [Reconcile(env, recorded)]
      else if !listed then []
      else if Decide(Ttl(quotas, b.ref), b.created, env.now) != Delete then [Reconcile(env, recorded)]
      else
        match deletion
        case Refused => []
        case Unanswered => [DeletionRequested]
        case Served => [Reconcile(env, false), DeletionRequested]
  }

  function TimedRun(cfg: Config, b: Birth, l: Life, moments: seq<Moment>): Life
    decreases |moments|
  {
    if moments == [] then l else TimedRun(cfg, b, Run(cfg, l, EventsOf(b, moments[0], l.deleting)), moments[1..])
  }

  // The life as its events alone.
  function TimedEvents(cfg: Config, b: Birth, l: Life, moments: seq<Moment>): seq<Event>
    decreases |moments|
  {
    if moments == [] then []
    else
      var now := EventsOf(b, moments[0], l.deleting);
      now + TimedEvents(cfg, b, Run(cfg, l, now), moments[1..])
  }

  /** With its time to live looked after, a life is still a life: all that holds of every
      sequence of events holds of it. */
  lemma {:induction false} TimedRunIsRun(cfg: Config, b: Birth, l: Life, moments: seq<Moment>)
    ensures TimedRun(cfg, b, l, moments) == Run(cfg, l, TimedEvents(cfg, b, l, moments))
    decreases |moments|
  {
    hide EventsOf;
    if moments == [] {
      assert Run(cfg, l, []) == l;
    } else {
      var now := EventsOf(b, moments[0], l.deleting);
      TimedRunIsRun(cfg, b, Run(cfg, l, now), moments[1..]);
      RunAppend(cfg, l, now, TimedEvents(cfg, b, Run(cfg, l, now), moments[1..]));
    }
  }

  // A look after the deadline whose deletion is carried out.
  ghost predicate Expires(b: Birth, m: Moment) {
    && m.Look? && m.listed && m.deletion != Refused
    && exists t :: InForce(m.quotas, b.ref, t) && b.created + t < m.env.now
  }

  ghost predicate Deletes(b: Birth, m: Moment) {
    m == Happens(DeletionRequested) || Expires(b, m)
  }

  lemma OneEvent(cfg: Config, l: Life, e: Event)
    ensures Run(cfg, l, [e]) == Step(cfg, l, e)
  {
    hide Step;
    assert [e][1..] == [];
    assert Run(cfg, Step(cfg, l, e), []) == Step(cfg, l, e);
  }

  lemma TwoEvents(cfg: Config, l: Life, e: Event, f: Event)
    ensures Run(cfg, l, [e, f]) == Step(cfg, Step(cfg, l, e), f)
  {
    hide Step;
    assert [e, f][1..] == [f];
    OneEvent(cfg, Step(cfg, l, e), f);
  }

  lemma StepDeleting(cfg: Config, l: Life, e: Event)
    ensures Step(cfg, l, e).deleting <==> l.deleting || e == DeletionRequested
  {
    hide Pass, DeletePass, Rely;
  }

  lemma MomentDeleting(cfg: Config, b: Birth, l: Life, m: Moment)
    ensures Run(cfg, l, EventsOf(b, m, l.deleting)).deleting <==> l.deleting || Deletes(b, m)
  {
    if m.Look? {
      TtlByEntries(m.quotas, b.ref);
    }
    hide Step, Ttl, Run, InForce, GivesNone;
    var events := EventsOf(b, m, l.deleting);
    if events == [] {
      assert Run(cfg, l, []) == l by { NoEvents(cfg, l); }
    } else {
      OneEvent(cfg, l, events[0]);
      StepDeleting(cfg, l, events[0]);
      if |events| == 2 {
        TwoEvents(cfg, l, events[0], events[1]);
        StepDeleting(cfg, Step(cfg, l, events[0]), events[1]);
      }
    }
  }

  lemma NoEvents(cfg: Config, l: Life)
    ensures Run(cfg, l, []) == l
  {}

  /** An instance is being deleted exactly when somebody asked for it, or a look that was
      not refused came strictly after its creation plus the time to live that was in force
      at that look. */
  lemma {:induction false} DeletedExactlyWhen(cfg: Config, b: Birth, l: Life, moments: seq<Moment>)
    ensures TimedRun(cfg, b, l, moments).deleting <==>
      l.deleting || exists i :: 0 <= i < |moments| && Deletes(b, moments[i])
    decreases |moments|
  {
    hide EventsOf, Deletes, Run;
    if moments != [] {
      var n := Run(cfg, l, EventsOf(b, moments[0], l.deleting));
      MomentDeleting(cfg, b, l, moments[0]);
      DeletedExactlyWhen(cfg, b, n, moments[1..]);
      if exists i :: 0 <= i < |moments[1..]| && Deletes(b, moments[1..][i]) {
        var i :| 0 <= i < |moments[1..]| && Deletes(b, moments[1..][i]);
        assert Deletes(b, moments[i + 1]);
      }
      if exists i :: 0 <= i < |moments| && Deletes(b, moments[i]) {
        var i :| 0 <= i < |moments| && Deletes(b, moments[i]);
        assert i > 0 ==> moments[i] == moments[1..][i - 1];
      }
    }
  }

  /** So an instance that nobody asks to delete, and to which no quota gives a time to live
      at any look, is never deleted. */
  lemma KeptWithoutTtl(cfg: Config, b: Birth, l: Life, moments: seq<Moment>)
    requires !l.deleting && forall i | 0 <= i < |moments| :: moments[i] != Happens(DeletionRequested)
    requires forall i | 0 <= i < |moments| && moments[i].Look? ::
        forall q | q in moments[i].quotas :: GivesNone(q, b.ref)
    ensures !TimedRun(cfg, b, l, moments).deleting
  {
    hide TimedRun;
    DeletedExactlyWhen(cfg, b, l, moments);
    if i: nat :| i < |moments| && Deletes(b, moments[i]) {
      assert moments[i].Look?;
      var t :| InForce(moments[i].quotas, b.ref, t);
      TtlByEntries(moments[i].quotas, b.ref);
      assert false;
    }
  }

  // -------- login window --------

  // A pending login is one whose window, counted from the recorded first attempt, is open.
  ghost predicate PendingIsInside(cfg: Config, env: Env, r: R) {
    r.err == Some(LoginPending) ==>
      r.st.status.firstLogin.Some? && env.loginNow < r.st.status.firstLogin.value + cfg.loginTimeout
  }

  lemma StagePending(cfg: Config, env: Env, st: St, k: nat)
    requires k < STAGE_COUNT
    ensures PendingIsInside(cfg, env, Stage(cfg, env, st, k))
  {
    if k != 6 {
      FaultsByStep(cfg, env, st, k);
    }
    hide AddClusterToArgo, OnlyChanges;
  }

  lemma {:induction false} StagesPending(cfg: Config, env: Env, st: St, k: nat)
    requires k <= STAGE_COUNT
    ensures PendingIsInside(cfg, env, Stages(cfg, env, st, k))
    decreases STAGE_COUNT - k
  {
    if k < STAGE_COUNT {
      StagePending(cfg, env, st, k);
      StagesPending(cfg, env, Stage(cfg, env, st, k).st, k + 1);
    }
    hide Stage;
  }

  lemma PassPending(cfg: Config, env: Env, s: Stored, w: Server)
    ensures PendingIsInside(cfg, env, Pass(cfg, env, s, w))
  {
    StagesPending(cfg, env, PassStart(cfg, env, s, w), 0);
    hide Stages, PassStart;
  }

  /** The window is anchored once and for all: if some moment of a life has recorded a
      first login attempt, then however many passes fail or lose their status after that,
      a later pass reports the login pending only strictly before that first attempt plus
      the timeout. */
  lemma LoginWindowIsAnchored(cfg: Config, born: Life, before: seq<Event>, after: seq<Event>, env: Env)
    requires Newborn(cfg, born)
    requires var s := Run(cfg, born, before).stored; s.Saved? && s.status.firstLogin.Some?
    requires var l := Run(cfg, born, before + after); Pass(cfg, env, l.stored, l.hub).err == Some(LoginPending)
    requires !Run(cfg, born, before + after).deleting
    ensures env.loginNow < Run(cfg, born, before).stored.status.firstLogin.value + cfg.loginTimeout
  {
    var s, l := Run(cfg, born, before).stored, Run(cfg, born, before + after);
    NeverTakenBack(cfg, born, before, after);
    NewbornInv(cfg, born);
    RunKeeps(cfg, born, before + after);
    AnchoredHere(cfg, env, s, l, born.hub);
    hide Run, Pass, LifeInv;
  }

  lemma AnchoredHere(cfg: Config, env: Env, s: Stored, l: Life, w: Server)
    requires LifeInv(cfg, l) && s.Saved? && s.status.firstLogin.Some? && StoredAdvances(s, l.stored, w)
    requires Pass(cfg, env, l.stored, l.hub).err == Some(LoginPending)
    ensures env.loginNow < s.status.firstLogin.value + cfg.loginTimeout
  {
    PassPending(cfg, env, l.stored, l.hub);
    PassAdvances(cfg, env, l.stored, l.hub);
    hide Pass, HubInv, TwoValued, Chain, AllGone, RestGone, At;
  }
}
