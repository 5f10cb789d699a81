/** The repository bridge: one worker per secret, at most fifteen in flight, all waited for. */
module Bridge {
  import opened Conditions

  datatype Secret = Secret(name: string, repoType: string)

  const CAPACITY: nat := 15

  // -------- the secrets of one repository type --------

  function OfType(secrets: seq<Secret>, repoType: string): seq<Secret> {
    if secrets == [] then []
    else (if secrets[0].repoType == repoType then [secrets[0]] else []) + OfType(secrets[1..], repoType)
  }

  lemma {:induction false} OfTypeSnoc(secrets: seq<Secret>, last: Secret, repoType: string)
    ensures OfType(secrets + [last], repoType) == OfType(secrets, repoType) +
        if last.repoType == repoType then [last] else []
  {
    if secrets == [] {
      assert secrets + [last] == [last];
    } else {
      var all := secrets + [last];
      assert all[0] == secrets[0] && all[1..] == secrets[1..] + [last];
      var head := if secrets[0].repoType == repoType then [secrets[0]] else [];
      assert OfType(all, repoType) == head + OfType(all[1..], repoType);
      OfTypeSnoc(secrets[1..], last, repoType);
    }
  }

  // The places of the secrets of the type.
  function Places(secrets: seq<Secret>, repoType: string, i: nat): (r: seq<nat>)
    requires i <= |secrets|
    ensures forall k | 0 <= k < |r| :: i <= r[k] < |secrets| && secrets[r[k]].repoType == repoType
    ensures forall j, k | 0 <= j < k < |r| :: r[j] < r[k]
    ensures forall j | i <= j < |secrets| && secrets[j].repoType == repoType :: j in r
    decreases |secrets| - i
  {
    if i == |secrets| then []
    else (if secrets[i].repoType == repoType then [i] else []) + Places(secrets, repoType, i + 1)
  }

  lemma OneFurther(secrets: seq<Secret>, repoType: string, i: nat)
    requires i < |secrets|
    ensures OfType(secrets[i..], repoType) ==
        (if secrets[i].repoType == repoType then [secrets[i]] else []) + OfType(secrets[i + 1..], repoType)
    ensures Places(secrets, repoType, i) ==
        (if secrets[i].repoType == repoType then [i] else []) + Places(secrets, repoType, i + 1)
  {
    assert secrets[i..][0] == secrets[i] && secrets[i..][1..] == secrets[i + 1..];
  }

  /** What is kept are the secrets at exactly those places, in their order. */
  lemma {:induction false} KeptByPlace(secrets: seq<Secret>, repoType: string, i: nat)
    requires i <= |secrets|
    ensures |OfType(secrets[i..], repoType)| == |Places(secrets, repoType, i)|
    ensures forall k | 0 <= k < |Places(secrets, repoType, i)| ::
        OfType(secrets[i..], repoType)[k] == secrets[Places(secrets, repoType, i)[k]]
    decreases |secrets| - i
  {
    if i < |secrets| {
      hide OfType, Places;
      OneFurther(secrets, repoType, i);
      KeptByPlace(secrets, repoType, i + 1);
    }
  }

  /** filterSecretsByType. */
  method FilterSecretsByType(secrets: seq<Secret>, repoType: string) returns (kept: seq<Secret>)
    ensures kept == OfType(secrets, repoType)
    ensures |kept| == |Places(secrets, repoType, 0)|
    ensures forall k | 0 <= k < |kept| :: kept[k] == secrets[Places(secrets, repoType, 0)[k]]
  {
    KeptByPlace(secrets, repoType, 0);
    assert secrets[0..] == secrets;
    kept := [];
    for i := 0 to |secrets|
      invariant kept == OfType(secrets[..i], repoType)
    {
      assert secrets[..i + 1] == secrets[..i] + [secrets[i]];
      OfTypeSnoc(secrets[..i], secrets[i], repoType);
      if secrets[i].repoType == repoType {
        kept := kept + [secrets[i]];
      }
    }
    assert secrets[..|secrets|] == secrets;
  }

  // -------- the routines --------

  // Main is about to take a token for worker `i`, to start it, to wait, or has returned.
  datatype Main = Acquire(i: nat) | Spawn(i: nat) | Waiting | Returned

  // A worker writes its slot, gives its token back, then reports to the wait group.
  datatype Phase = NotStarted | Fetching | Written | TokenBack | Finished

  datatype State<V> = State(
    main: Main, workers: seq<Phase>, tokens: nat, pending: nat, slots: seq<Option<V>>, writes: seq<nat>)

  datatype Routine = MainRoutine | Worker(i: nat)

  function AfterLoop(i: nat, n: nat): Main {
    if i < n then Acquire(i) else Waiting
  }

  function Init<V>(n: nat): State<V> {
    State(AfterLoop(0, n), seq(n, _ => NotStarted), 0, 0, seq(n, _ => None), seq(n, _ => 0))
  }

  predicate Enabled<V>(s: State<V>, r: Routine) {
    match r
    case MainRoutine => (
      match s.main
      case Acquire(_) => s.tokens < CAPACITY
      case Spawn(_) => true
      case Waiting => s.pending == 0
      case Returned => false)
    case Worker(i) =>
      && i < |s.workers|
      && (s.workers[i] == Fetching || (s.workers[i] == Written && 0 < s.tokens) || s.workers[i] == TokenBack)
  }

  // One step; a routine that is blocked stays where it is. `results[i]` is what fetching
  // the i-th secret gives.
  function Step<V>(results: seq<V>, s: State<V>, r: Routine): State<V> {
    if !Enabled(s, r) then s
    else
      match r
      case MainRoutine => (
        match s.main
        case Acquire(i) => s.(main := Spawn(i), tokens := s.tokens + 1)
        case Spawn(i) =>
          s.(main := AfterLoop(i + 1, |s.workers|), pending := s.pending + 1,
             workers := if i < |s.workers| then s.workers[i := Fetching] else s.workers)
        case Waiting => s.(main := Returned)
        case Returned => s)
      case Worker(i) => (
        match s.workers[i]
        case Fetching =>
          if i < |results| && i < |s.slots| && i < |s.writes| then
            s.(workers := s.workers[i := Written], slots := s.slots[i := Some(results[i])],
               writes := s.writes[i := s.writes[i] + 1])
          else s
        case Written => s.(workers := s.workers[i := TokenBack], tokens := s.tokens - 1)
        case TokenBack => s.(workers := s.workers[i := Finished], pending := if 0 < s.pending then s.pending - 1 else 0)
        case _ => s)
  }

  function Run<V>(results: seq<V>, s: State<V>, schedule: seq<Routine>): State<V>
    decreases |schedule|
  {
    if schedule == [] then s else Run(results, Step(results, s, schedule[0]), schedule[1..])
  }

  // -------- sums over the workers --------

  datatype Meter = InFlight | HoldsToken | IsPending | StepsLeft

  function Cost(p: Phase, m: Meter): nat {
    match m
    case InFlight => if p == Fetching then 1 else 0
    case HoldsToken => if p == Fetching || p == Written then 1 else 0
    case IsPending => if p == Fetching || p == Written || p == TokenBack then 1 else 0
    case StepsLeft => (
      match p
      case NotStarted => 3
      case Fetching => 3
      case Written => 2
      case TokenBack => 1
      case Finished => 0)
  }

  function Total(ws: seq<Phase>, m: Meter): nat {
    if ws == [] then 0 else Cost(ws[0], m) + Total(ws[1..], m)
  }

  lemma {:induction false} TotalUpdate(ws: seq<Phase>, i: nat, p: Phase, m: Meter)
    requires i < |ws|
    ensures Total(ws[i := p], m) == Total(ws, m) - Cost(ws[i], m) + Cost(p, m)
  {
    if i == 0 {
      assert ws[0 := p] == [p] + ws[1..];
    } else {
      assert ws[i := p] == [ws[0]] + ws[1..][i - 1 := p];
      TotalUpdate(ws[1..], i - 1, p, m);
    }
  }

  lemma {:induction false} TotalCovers(ws: seq<Phase>, i: nat, m: Meter)
    requires i < |ws|
    ensures Cost(ws[i], m) <= Total(ws, m)
  {
    if i > 0 {
      TotalCovers(ws[1..], i - 1, m);
    }
  }

  lemma {:induction false} InFlightHolds(ws: seq<Phase>)
    ensures Total(ws, InFlight) <= Total(ws, HoldsToken)
  {
    if ws != [] {
      InFlightHolds(ws[1..]);
    }
  }

  lemma {:induction false} TotalUniform(ws: seq<Phase>, m: Meter, each: nat)
    requires forall i | 0 <= i < |ws| :: Cost(ws[i], m) == each
    ensures Total(ws, m) == |ws| * each
  {
    if ws != [] {
      TotalUniform(ws[1..], m, each);
      assert |ws| * each == each + |ws[1..]| * each;
    }
  }

  // -------- the invariant --------

  function Started<V>(s: State<V>): nat {
    match s.main
    case Acquire(i) => i
    case Spawn(i) => i
    case _ => |s.workers|
  }

  predicate SlotRight<V(==)>(results: seq<V>, s: State<V>, i: nat)
    requires i < |results| == |s.workers| == |s.slots| == |s.writes|
  {
    var done := s.workers[i] == Written || s.workers[i] == TokenBack || s.workers[i] == Finished;
    s.slots[i] == (if done then Some(results[i]) else None) && s.writes[i] == if done then 1 else 0
  }

  ghost predicate Inv<V>(results: seq<V>, s: State<V>) {
    && |results| == |s.workers| == |s.slots| == |s.writes|
    && (s.main.Acquire? || s.main.Spawn? ==> s.main.i < |s.workers|)
    && s.tokens == Total(s.workers, HoldsToken) + (if s.main.Spawn? then 1 else 0)
    && s.tokens <= CAPACITY
    && s.pending == Total(s.workers, IsPending)
    && (forall i | 0 <= i < |s.workers| :: s.workers[i] == NotStarted <==> Started(s) <= i)
    && (forall i: nat | i < |s.workers| :: SlotRight(results, s, i))
    && (s.main.Returned? ==> s.pending == 0)
  }

  lemma InitInv<V>(results: seq<V>)
    ensures Inv(results, Init<V>(|results|))
  {
    var s := Init<V>(|results|);
    TotalUniform(s.workers, HoldsToken, 0);
    TotalUniform(s.workers, IsPending, 0);
  }

  // Steps that are still to be taken, on every schedule.
  function Remaining<V>(s: State<V>): nat {
    Total(s.workers, StepsLeft) +
    match s.main
    case Acquire(i) => if i < |s.workers| then 2 * (|s.workers| - i) + 1 else 1
    case Spawn(i) => if i < |s.workers| then 2 * (|s.workers| - i) else 1
    case Waiting => 1
    case Returned => 0
  }

  lemma MainStep<V>(results: seq<V>, s: State<V>)
    requires Inv(results, s) && Enabled(s, MainRoutine)
    ensures Inv(results, Step(results, s, MainRoutine))
    ensures Remaining(Step(results, s, MainRoutine)) == Remaining(s) - 1
  {
    var n := Step(results, s, MainRoutine);
    if s.main.Spawn? {
      var i := s.main.i;
      TotalUpdate(s.workers, i, Fetching, HoldsToken);
      TotalUpdate(s.workers, i, Fetching, IsPending);
      TotalUpdate(s.workers, i, Fetching, StepsLeft);
    }
    forall i: nat | i < |s.workers| ensures SlotRight(results, n, i) {
      assert SlotRight(results, s, i);
    }
  }

  lemma WorkerStep<V>(results: seq<V>, s: State<V>, i: nat)
    requires Inv(results, s) && Enabled(s, Worker(i))
    ensures Inv(results, Step(results, s, Worker(i)))
    ensures Remaining(Step(results, s, Worker(i))) == Remaining(s) - 1
  {
    var n := Step(results, s, Worker(i));
    assert SlotRight(results, s, i);
    TotalCovers(s.workers, i, HoldsToken);
    TotalCovers(s.workers, i, IsPending);
    TotalUpdate(s.workers, i, n.workers[i], HoldsToken);
    TotalUpdate(s.workers, i, n.workers[i], IsPending);
    TotalUpdate(s.workers, i, n.workers[i], StepsLeft);
    forall j: nat | j < |s.workers| ensures SlotRight(results, n, j) {
      assert SlotRight(results, s, j);
    }
    hide Total;
  }

  lemma StepKeeps<V>(results: seq<V>, s: State<V>, r: Routine)
    requires Inv(results, s)
    ensures Inv(results, Step(results, s, r))
    ensures Remaining(Step(results, s, r)) == if Enabled(s, r) then Remaining(s) - 1 else Remaining(s)
  {
    if Enabled(s, r) {
      match r
      case MainRoutine => MainStep(results, s);
      case Worker(i) => WorkerStep(results, s, i);
    }
  }

  lemma {:induction false} RunKeeps<V>(results: seq<V>, s: State<V>, schedule: seq<Routine>)
    requires Inv(results, s)
    ensures Inv(results, Run(results, s, schedule))
    decreases |schedule|
  {
    hide Inv, Step;
    if schedule != [] {
      StepKeeps(results, s, schedule[0]);
      RunKeeps(results, Step(results, s, schedule[0]), schedule[1..]);
    }
  }

  /** On every schedule, never more than fifteen fetches are in flight, and no slot is
      written twice or with anything but its own secret's result. */
  lemma AtMostFifteenInFlight<V>(results: seq<V>, schedule: seq<Routine>)
    ensures var s := Run(results, Init<V>(|results|), schedule);
      && Total(s.workers, InFlight) <= 15
      && |s.slots| == |results| == |s.writes|
      && (forall i | 0 <= i < |results| :: s.writes[i] <= 1)
      && (forall i | 0 <= i < |results| && s.slots[i].Some? :: s.slots[i].value == results[i])
  {
    InitInv(results);
    RunKeeps(results, Init<V>(|results|), schedule);
    var s := Run(results, Init<V>(|results|), schedule);
    InFlightHolds(s.workers);
    forall i: nat | i < |results| ensures s.writes[i] <= 1 && (s.slots[i].Some? ==> s.slots[i].value == results[i]) {
      assert SlotRight(results, s, i);
    }
    hide Run, Total;
  }

  lemma {:induction false} SomebodyBusy(ws: seq<Phase>)
    requires 0 < Total(ws, IsPending)
    ensures exists i: nat :: i < |ws| && Cost(ws[i], IsPending) == 1
  {
    if Cost(ws[0], IsPending) != 1 {
      SomebodyBusy(ws[1..]);
      var i: nat :| i < |ws[1..]| && Cost(ws[1..][i], IsPending) == 1;
      assert Cost(ws[i + 1], IsPending) == 1;
    }
  }

  lemma {:induction false} TokensArePending(ws: seq<Phase>)
    ensures Total(ws, HoldsToken) <= Total(ws, IsPending)
  {
    if ws != [] {
      TokensArePending(ws[1..]);
    }
  }

  /** There is never a deadlock: until the main routine has returned, some routine can
      take a step. */
  lemma NeverStuck<V>(results: seq<V>, s: State<V>)
    requires Inv(results, s)
    ensures s.main.Returned? <==> forall r :: !Enabled(s, r)
  {
    TokensArePending(s.workers);
    if s.main.Returned? {
      forall r ensures !Enabled(s, r) {
        if r.Worker? && r.i < |s.workers| {
          TotalCovers(s.workers, r.i, IsPending);
        }
      }
    } else if s.pending == 0 {
      assert Enabled(s, MainRoutine);
    } else {
      SomebodyBusy(s.workers);
      var i: nat :| i < |s.workers| && Cost(s.workers[i], IsPending) == 1;
      TotalCovers(s.workers, i, HoldsToken);
      assert Enabled(s, Worker(i));
    }
    hide Total;
  }

  // A schedule that only names routines that can move.
  predicate Productive<V>(results: seq<V>, s: State<V>, schedule: seq<Routine>)
    decreases |schedule|
  {
    schedule != [] ==> Enabled(s, schedule[0]) && Productive(results, Step(results, s, schedule[0]), schedule[1..])
  }

  lemma {:induction false} RemainingCounts<V>(results: seq<V>, s: State<V>, schedule: seq<Routine>)
    requires Inv(results, s) && Productive(results, s, schedule)
    ensures Remaining(Run(results, s, schedule)) == Remaining(s) - |schedule|
    decreases |schedule|
  {
    hide Inv, Step, Enabled, Remaining;
    if schedule != [] {
      StepKeeps(results, s, schedule[0]);
      RemainingCounts(results, Step(results, s, schedule[0]), schedule[1..]);
    }
  }

  lemma InitRemaining<V>(results: seq<V>)
    ensures Remaining(Init<V>(|results|)) == 5 * |results| + 1
  {
    TotalUniform(Init<V>(|results|).workers, StepsLeft, 3);
    hide Total;
  }

  /** Every schedule ends: exactly five steps per secret and one for the main routine, in
      whatever order, and then the main routine has returned. */
  lemma EveryScheduleEnds<V>(results: seq<V>, schedule: seq<Routine>)
    requires Productive(results, Init<V>(|results|), schedule)
    ensures |schedule| <= 5 * |results| + 1
    ensures Run(results, Init<V>(|results|), schedule).main.Returned? <==> |schedule| == 5 * |results| + 1
  {
    var s := Init<V>(|results|);
    InitInv(results);
    InitRemaining(results);
    RemainingCounts(results, s, schedule);
    RunKeeps(results, s, schedule);
    NoneRemaining(results, Run(results, s, schedule));
    hide Run, Productive, Remaining, Init, Inv;
  }

  lemma NoneRemaining<V>(results: seq<V>, s: State<V>)
    requires Inv(results, s)
    ensures s.main.Returned? <==> Remaining(s) == 0
  {
    hide Total;
    if s.main.Returned? {
      AllFinished(results, s);
    }
  }

  lemma AllFinished<V>(results: seq<V>, s: State<V>)
    requires Inv(results, s) && s.main.Returned?
    ensures forall i | 0 <= i < |s.workers| :: s.workers[i] == Finished
    ensures Total(s.workers, StepsLeft) == 0
  {
    forall i: nat | i < |s.workers| ensures s.workers[i] == Finished {
      TotalCovers(s.workers, i, IsPending);
    }
    TotalUniform(s.workers, StepsLeft, 0);
  }

  function Filled<V>(results: seq<V>): (r: seq<Option<V>>)
    ensures |r| == |results| && forall i | 0 <= i < |r| :: r[i] == Some(results[i])
  {
    seq(|results|, i requires 0 <= i < |results| => Some(results[i]))
  }

  /** When Wait returns, on any schedule, every slot has been written exactly once and the
      slots are the results in the order of the secrets: what fetching them one after the
      other would give. */
  lemma SameAsSequential<V>(results: seq<V>, schedule: seq<Routine>)
    requires Run(results, Init<V>(|results|), schedule).main.Returned?
    ensures var s := Run(results, Init<V>(|results|), schedule);
      && s.slots == Filled(results)
      && |s.writes| == |results| && (forall i | 0 <= i < |results| :: s.writes[i] == 1)
  {
    InitInv(results);
    RunKeeps(results, Init<V>(|results|), schedule);
    var s := Run(results, Init<V>(|results|), schedule);
    AllFinished(results, s);
    hide Run, Total;
    forall i: nat | i < |results| ensures s.writes[i] == 1 && s.slots[i] == Some(results[i]) {
      assert SlotRight(results, s, i);
    }
  }
}
