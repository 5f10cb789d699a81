/** The status conditions of a cluster template instance: a list that is searched by
    type and updated in place, and the gate that every later step asks. */
module Conditions {

  datatype ConditionType =
    | ClusterDefinitionCreated
    | ClusterInstallSucceeded
    | ManagedClusterCreated
    | ManagedClusterImported
    | KlusterletAddonCreated
    | ArgoClusterAdded
    | ClusterSetupCreated
    | ClusterSetupSucceeded
    | ConsoleURLRetrieved
    | Ready                       // declared, never set

  datatype ConditionStatus = True | False | Unknown

  datatype Reason =
    | ClusterDefinitionPending | ClusterDefinitionFailed | ApplicationCreated
    | ApplicationFetchFailed | ApplicationDegraded | ApplicationError | ClusterDefinitionNotCreated
    | ClusterProviderDetectionFailed | ClusterStatusFailed | ClusterInstalled | ClusterInstalling
    | ConsoleURLFailed | ConsoleURLSucceeded | ConsoleURLSkipped | ConsoleURLPending
    | MCFailed | MCCreated | MCPending | MCSkipped
    | KlusterletCreated | KlusterletFailed | KlusterletCreatePending | KlusterletSkipped
    | MCImportFailed | MCImported | MCImporting | MCImportPending | MCImportSkipped
    | ArgoClusterFailed | ArgoClusterCreated | ArgoClusterPending | ArgoClusterLoginPending
    | ClusterNotInstalled | ClusterSetupNotSpecified | ClusterSetupCreationFailed | SetupCreated
    | ClusterSetupNotDefined | ClusterSetupFetchFailed | ClusterSetupAppsNotFound | ClusterSetupRunning
    | SetupSucceeded | ClusterSetupDegraded | ClusterSetupError | ClusterSetupNotCreated

  datatype Condition = Condition(ctype: ConditionType, status: ConditionStatus, reason: Reason, transition: int)

  datatype Option<+T> = None | Some(value: T)

  // FindStatusCondition: the first entry of the type.
  function Find(cs: seq<Condition>, t: ConditionType): (r: Option<Condition>)
    ensures r.Some? ==> r.value in cs && r.value.ctype == t
    ensures r.None? <==> forall i | 0 <= i < |cs| :: cs[i].ctype != t
  {
    if cs == [] then None
    else if cs[0].ctype == t then Some(cs[0])
    else Find(cs[1..], t)
  }

  predicate Has(cs: seq<Condition>, t: ConditionType) {
    Find(cs, t).Some?
  }

  // Overwrites the reason always, the time only with the status.
  function Merge(old_: Condition, c: Condition): Condition {
    c.(transition := if old_.status == c.status then old_.transition else c.transition)
  }

  predicate NoDuplicates(cs: seq<Condition>) {
    forall i, j | 0 <= i < j < |cs| :: cs[i].ctype != cs[j].ctype
  }

  // SetStatusCondition.
  function Set(cs: seq<Condition>, c: Condition): (r: seq<Condition>)
    ensures Find(r, c.ctype) == Some(if Has(cs, c.ctype) then Merge(Find(cs, c.ctype).value, c) else c)
    ensures forall t | t != c.ctype :: Find(r, t) == Find(cs, t)
    ensures |r| == if Has(cs, c.ctype) then |cs| else |cs| + 1
  {
    if cs == [] then [c]
    else if cs[0].ctype == c.ctype then [Merge(cs[0], c)] + cs[1..]
    else [cs[0]] + Set(cs[1..], c)
  }

  const ALL_TYPES: seq<ConditionType> :=
    [ClusterDefinitionCreated, ClusterInstallSucceeded, ManagedClusterCreated, ManagedClusterImported,
     KlusterletAddonCreated, ArgoClusterAdded, ClusterSetupCreated, ClusterSetupSucceeded, ConsoleURLRetrieved]

  function DefaultReason(t: ConditionType): Reason {
    match t
    case ClusterDefinitionCreated => ClusterDefinitionPending
    case ClusterInstallSucceeded => ClusterDefinitionNotCreated
    case ManagedClusterCreated => MCPending
    case ManagedClusterImported => MCImportPending
    case KlusterletAddonCreated => KlusterletCreatePending
    case ArgoClusterAdded => ArgoClusterPending
    case ClusterSetupCreated => ClusterNotInstalled
    case ClusterSetupSucceeded => ClusterSetupNotCreated
    case ConsoleURLRetrieved => ConsoleURLPending
    case Ready => ClusterDefinitionPending
  }

  function Default(cs: seq<Condition>, t: ConditionType, now: int): (r: seq<Condition>) {
    if Has(cs, t) then cs else Set(cs, Condition(t, False, DefaultReason(t), now))
  }

  function Defaults(cs: seq<Condition>, ts: seq<ConditionType>, now: int): seq<Condition>
    decreases |ts|
  {
    if ts == [] then cs else Defaults(Default(cs, ts[0], now), ts[1..], now)
  }

  // SetDefaultConditions.
  function WithDefaults(cs: seq<Condition>, now: int): seq<Condition> {
    Defaults(cs, ALL_TYPES, now)
  }

  // Every type the controller reads occurs exactly once, and no other does.
  ghost predicate WellFormed(cs: seq<Condition>) {
    NoDuplicates(cs) && (forall t :: t != Ready <==> Has(cs, t))
  }

  function StatusOf(cs: seq<Condition>, t: ConditionType): ConditionStatus
    requires Has(cs, t)
  {
    Find(cs, t).value.status
  }

  /** PhaseCanExecute: the previous condition is not False and, when a current one is
      given, that one is not True. A missing condition is a nil dereference in the
      source, hence the requires. */
  predicate PhaseCanExecute(cs: seq<Condition>, prev: ConditionType, current: Option<ConditionType>)
    requires Has(cs, prev) && (current.Some? ==> Has(cs, current.value))
  {
    StatusOf(cs, prev) != False && (current.Some? ==> StatusOf(cs, current.value) != True)
  }

  // -------- lemmas --------

  lemma {:induction false} SetKeepsTypes(cs: seq<Condition>, c: Condition)
    ensures forall i | 0 <= i < |cs| :: Set(cs, c)[i].ctype == cs[i].ctype
    ensures |Set(cs, c)| == |cs| + 1 ==> Set(cs, c)[|cs|] == c
  {
    if cs != [] && cs[0].ctype != c.ctype {
      SetKeepsTypes(cs[1..], c);
      assert Set(cs, c) == [cs[0]] + Set(cs[1..], c);
    }
  }

  lemma SetKeepsNoDuplicates(cs: seq<Condition>, c: Condition)
    requires NoDuplicates(cs)
    ensures NoDuplicates(Set(cs, c))
  {
    SetKeepsTypes(cs, c);
  }

  lemma SetKeepsWellFormed(cs: seq<Condition>, c: Condition)
    requires WellFormed(cs) && c.ctype != Ready
    ensures WellFormed(Set(cs, c))
  {
    SetKeepsNoDuplicates(cs, c);
    forall t ensures t != Ready <==> Has(Set(cs, c), t) {
      assert t != Ready <==> Has(cs, t);
    }
  }

  lemma {:induction false} DefaultsEnsure(cs: seq<Condition>, ts: seq<ConditionType>, now: int)
    requires NoDuplicates(cs)
    ensures NoDuplicates(Defaults(cs, ts, now))
    ensures forall t :: Has(Defaults(cs, ts, now), t) <==> Has(cs, t) || t in ts
    ensures forall t | Has(cs, t) :: Find(Defaults(cs, ts, now), t) == Find(cs, t)
    ensures forall t | !Has(cs, t) && t in ts ::
              Find(Defaults(cs, ts, now), t) == Some(Condition(t, False, DefaultReason(t), now))
    decreases |ts|
  {
    if ts != [] {
      if !Has(cs, ts[0]) {
        SetKeepsNoDuplicates(cs, Condition(ts[0], False, DefaultReason(ts[0]), now));
      }
      DefaultsEnsure(Default(cs, ts[0], now), ts[1..], now);
    }
  }

  lemma {:induction false} DefaultsIdle(cs: seq<Condition>, ts: seq<ConditionType>, now: int)
    requires forall t | t in ts :: Has(cs, t)
    ensures Defaults(cs, ts, now) == cs
    decreases |ts|
  {
    if ts != [] {
      DefaultsIdle(cs, ts[1..], now);
    }
  }

  lemma AllTypesListed()
    ensures forall t: ConditionType :: t != Ready <==> t in ALL_TYPES
  {
    var a := ALL_TYPES;
    assert a[0] == ClusterDefinitionCreated && a[1] == ClusterInstallSucceeded && a[2] == ManagedClusterCreated
        && a[3] == ManagedClusterImported && a[4] == KlusterletAddonCreated && a[5] == ArgoClusterAdded
        && a[6] == ClusterSetupCreated && a[7] == ClusterSetupSucceeded && a[8] == ConsoleURLRetrieved;
  }

  /** From any duplicate-free list of known types, defaulting yields each of the nine
      types exactly once, keeps what was there and adds only False conditions; on a
      well-formed list it does nothing. */
  lemma DefaultsMakeWellFormed(cs: seq<Condition>, now: int)
    requires NoDuplicates(cs) && !Has(cs, Ready)
    ensures WellFormed(WithDefaults(cs, now))
    ensures forall t | Has(cs, t) :: Find(WithDefaults(cs, now), t) == Find(cs, t)
    ensures forall t | t != Ready && !Has(cs, t) :: StatusOf(WithDefaults(cs, now), t) == False
    ensures WellFormed(cs) ==> WithDefaults(cs, now) == cs
  {
    DefaultsEnsure(cs, ALL_TYPES, now);
    AllTypesListed();
    var ds := WithDefaults(cs, now);
    forall t ensures t != Ready <==> Has(ds, t) {
      assert Has(ds, t) <==> Has(cs, t) || t in ALL_TYPES;
    }
    forall t | t != Ready && !Has(cs, t) ensures StatusOf(ds, t) == False {
      assert Has(ds, t) && t in ALL_TYPES;
    }
    if WellFormed(cs) {
      DefaultsIdle(cs, ALL_TYPES, now);
    }
  }

  // -------- the list as a board --------

  datatype Mark = Mark(status: ConditionStatus, reason: Reason, transition: int)

  // The nine conditions of an instance, once they all exist.
  datatype Board = Board(
    definitionCreated: Mark, installSucceeded: Mark, clusterCreated: Mark, clusterImported: Mark,
    klusterletCreated: Mark, argoAdded: Mark, setupCreated: Mark, setupSucceeded: Mark, consoleURL: Mark)

  function Get(b: Board, t: ConditionType): Mark {
    match t
    case ClusterDefinitionCreated => b.definitionCreated
    case ClusterInstallSucceeded => b.installSucceeded
    case ManagedClusterCreated => b.clusterCreated
    case ManagedClusterImported => b.clusterImported
    case KlusterletAddonCreated => b.klusterletCreated
    case ArgoClusterAdded => b.argoAdded
    case ClusterSetupCreated => b.setupCreated
    case ClusterSetupSucceeded => b.setupSucceeded
    case ConsoleURLRetrieved => b.consoleURL
    case Ready => b.definitionCreated
  }

  function Put(b: Board, t: ConditionType, m: Mark): Board {
    match t
    case ClusterDefinitionCreated => b.(definitionCreated := m)
    case ClusterInstallSucceeded => b.(installSucceeded := m)
    case ManagedClusterCreated => b.(clusterCreated := m)
    case ManagedClusterImported => b.(clusterImported := m)
    case KlusterletAddonCreated => b.(klusterletCreated := m)
    case ArgoClusterAdded => b.(argoAdded := m)
    case ClusterSetupCreated => b.(setupCreated := m)
    case ClusterSetupSucceeded => b.(setupSucceeded := m)
    case ConsoleURLRetrieved => b.(consoleURL := m)
    case Ready => b
  }

  // One condition setter: a new reason, and a new time only with a new status.
  function Write(b: Board, t: ConditionType, s: ConditionStatus, r: Reason, now: int): Board {
    Put(b, t, Mark(s, r, if Get(b, t).status == s then Get(b, t).transition else now))
  }

  function Pending(t: ConditionType, now: int): Mark {
    Mark(False, DefaultReason(t), now)
  }

  function NewBoard(now: int): Board {
    Board(Pending(ClusterDefinitionCreated, now), Pending(ClusterInstallSucceeded, now),
          Pending(ManagedClusterCreated, now), Pending(ManagedClusterImported, now),
          Pending(KlusterletAddonCreated, now), Pending(ArgoClusterAdded, now),
          Pending(ClusterSetupCreated, now), Pending(ClusterSetupSucceeded, now), Pending(ConsoleURLRetrieved, now))
  }

  // PhaseCanExecute on the board.
  predicate CanExecute(b: Board, prev: ConditionType, current: Option<ConditionType>) {
    Get(b, prev).status != False && (current.Some? ==> Get(b, current.value).status != True)
  }

  ghost predicate ShowsAt(cs: seq<Condition>, b: Board, t: ConditionType) {
    Find(cs, t) == Some(Condition(t, Get(b, t).status, Get(b, t).reason, Get(b, t).transition))
  }

  // The list holds exactly the nine conditions that the board shows.
  ghost predicate Shows(cs: seq<Condition>, b: Board) {
    WellFormed(cs) && forall t | t != Ready :: ShowsAt(cs, b, t)
  }

  lemma GetPut(b: Board, t: ConditionType, m: Mark, u: ConditionType)
    requires t != Ready && u != Ready
    ensures Get(Put(b, t, m), u) == if u == t then m else Get(b, u)
  {}

  lemma SetShowsAt(cs: seq<Condition>, b: Board, t: ConditionType, s: ConditionStatus, r: Reason, now: int,
      u: ConditionType)
    requires t != Ready && u != Ready && ShowsAt(cs, b, t) && ShowsAt(cs, b, u)
    ensures ShowsAt(Set(cs, Condition(t, s, r, now)), Write(b, t, s, r, now), u)
  {
    var c := Condition(t, s, r, now);
    assert Has(cs, t) && Find(Set(cs, c), t) == Some(Merge(Find(cs, t).value, c));
    assert u != t ==> Find(Set(cs, c), u) == Find(cs, u);
    hide Find, Get, Put;
    GetPut(b, t, Mark(s, r, if Get(b, t).status == s then Get(b, t).transition else now), u);
  }

  /** The searched and updated list and the board stay in step: setting, defaulting and
      the gate mean the same on both. */
  lemma SetShows(cs: seq<Condition>, b: Board, t: ConditionType, s: ConditionStatus, r: Reason, now: int)
    requires Shows(cs, b) && t != Ready
    ensures Shows(Set(cs, Condition(t, s, r, now)), Write(b, t, s, r, now))
  {
    hide ShowsAt, WellFormed, Write, Find;
    SetKeepsWellFormed(cs, Condition(t, s, r, now));
    forall u | u != Ready ensures ShowsAt(Set(cs, Condition(t, s, r, now)), Write(b, t, s, r, now), u) {
      SetShowsAt(cs, b, t, s, r, now, u);
    }
  }

  lemma NewBoardShows(now: int, t: ConditionType)
    requires t != Ready
    ensures ShowsAt(WithDefaults([], now), NewBoard(now), t)
  {
    DefaultsEnsure([], ALL_TYPES, now);
    AllTypesListed();
    assert !Has([], t) && t in ALL_TYPES;
    hide Find, Defaults, Has;
    assert Get(NewBoard(now), t) == Pending(t, now);
  }

  lemma DefaultsShow(cs: seq<Condition>, b: Board, now: int)
    requires cs == [] || Shows(cs, b)
    ensures Shows(WithDefaults(cs, now), if cs == [] then NewBoard(now) else b)
  {
    DefaultsMakeWellFormed(cs, now);
    hide ShowsAt, WellFormed, Find, WithDefaults, NewBoard;
    if cs == [] {
      forall t | t != Ready ensures ShowsAt(WithDefaults(cs, now), NewBoard(now), t) {
        NewBoardShows(now, t);
      }
    }
  }

  lemma GateShows(cs: seq<Condition>, b: Board, prev: ConditionType, current: Option<ConditionType>)
    requires Shows(cs, b) && prev != Ready && current != Some(Ready)
    ensures Has(cs, prev) && (current.Some? ==> Has(cs, current.value))
    ensures PhaseCanExecute(cs, prev, current) <==> CanExecute(b, prev, current)
  {
    assert ShowsAt(cs, b, prev);
    assert current.Some? ==> ShowsAt(cs, b, current.value);
  }

  // -------- the in-place form --------

  lemma UpdateBehind<T>(s: seq<T>, k: nat, m: T)
    requires 0 < k < |s|
    ensures s[k := m] == [s[0]] + s[1..][k - 1 := m]
  {}

  lemma {:induction false} SetAt(cs: seq<Condition>, c: Condition, k: nat)
    requires k < |cs| && cs[k].ctype == c.ctype
    requires forall i | 0 <= i < k :: cs[i].ctype != c.ctype
    ensures Set(cs, c) == cs[k := Merge(cs[k], c)]
  {
    hide Merge, Find;
    if k == 0 {
      assert cs[0 := Merge(cs[0], c)] == [Merge(cs[0], c)] + cs[1..];
    } else {
      assert cs[1..][k - 1] == cs[k];
      SetAt(cs[1..], c, k - 1);
      UpdateBehind(cs, k, Merge(cs[k], c));
    }
  }

  lemma {:induction false} SetAbsent(cs: seq<Condition>, c: Condition)
    requires !Has(cs, c.ctype)
    ensures Set(cs, c) == cs + [c]
  {
    if cs != [] {
      SetAbsent(cs[1..], c);
    }
  }

  class ConditionList {
    var items: seq<Condition>

    constructor (items: seq<Condition>)
      ensures this.items == items
    {
      this.items := items;
    }

    method SetStatusCondition(c: Condition)
      modifies this
      ensures items == Set(old(items), c)
    {
      var i := 0;
      while i < |items|
        invariant 0 <= i <= |items|
        invariant items == old(items)
        invariant forall j | 0 <= j < i :: items[j].ctype != c.ctype
      {
        if items[i].ctype == c.ctype {
          SetAt(items, c, i);
          var status := items[i].status;
          var when := if status != c.status then c.transition else items[i].transition;
          items := items[i := Condition(c.ctype, c.status, c.reason, when)];
          return;
        }
        i := i + 1;
      }
      SetAbsent(items, c);
      items := items + [c];
    }

    method SetDefaultConditions(now: int)
      modifies this
      ensures items == WithDefaults(old(items), now)
    {
      for i := 0 to |ALL_TYPES|
        invariant Defaults(items, ALL_TYPES[i..], now) == WithDefaults(old(items), now)
      {
        assert ALL_TYPES[i..][0] == ALL_TYPES[i] && ALL_TYPES[i..][1..] == ALL_TYPES[i + 1..];
        if !Has(items, ALL_TYPES[i]) {
          SetStatusCondition(Condition(ALL_TYPES[i], False, DefaultReason(ALL_TYPES[i]), now));
        }
      }
    }
  }
}
