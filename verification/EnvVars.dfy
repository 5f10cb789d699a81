/** The subscription's environment variable that namespaces are added to and removed from. */
module EnvVars {
  import opened Conditions

  datatype EnvVar = EnvVar(name: string, value: string)

  const VARIABLE_NAME := "ARGOCD_CLUSTER_CONFIG_NAMESPACES"
  const OWN_NAMESPACE := "cluster-aas-operator"

  // -------- comma-separated values --------

  predicate Plain(s: string) { ',' !in s }

  function Split(s: string): (r: seq<string>)
    ensures |r| > 0
  {
    if s == "" then [""]
    else if s[0] == ',' then [""] + Split(s[1..])
    else
      var r := Split(s[1..]);
      [[s[0]] + r[0]] + r[1..]
  }

  function Join(parts: seq<string>): string {
    if parts == [] then ""
    else if |parts| == 1 then parts[0]
    else parts[0] + "," + Join(parts[1..])
  }

  lemma {:induction false} SplitPlain(s: string)
    requires Plain(s)
    ensures Split(s) == [s]
  {
    if s != "" {
      SplitPlain(s[1..]);
      assert [s[0]] + s[1..] == s;
    }
  }

  lemma JoinFirst(head: string, part: string, rest: seq<string>)
    ensures Join([head + part] + rest) == head + Join([part] + rest)
  {
    if rest != [] {
      assert ([head + part] + rest)[1..] == rest && ([part] + rest)[1..] == rest;
      assert head + part + "," + Join(rest) == head + (part + "," + Join(rest));
    }
  }

  /** Joining what was split gives the string back. */
  lemma {:induction false} JoinOfSplit(s: string)
    ensures Join(Split(s)) == s
  {
    if s != "" {
      var r := Split(s[1..]);
      JoinOfSplit(s[1..]);
      if s[0] == ',' {
        assert ([""] + r)[1..] == r;
        assert "" + "," + s[1..] == s;
      } else {
        JoinFirst([s[0]], r[0], r[1..]);
        assert [r[0]] + r[1..] == r;
        assert [s[0]] + s[1..] == s;
      }
    }
  }

  // Two lists of parts, with the character that starts both put in front.
  function Prepend(c: char, parts: seq<string>): seq<string>
    requires parts != []
  {
    if c == ',' then [""] + parts else [[c] + parts[0]] + parts[1..]
  }

  lemma PrependAppend(c: char, x: seq<string>, y: seq<string>)
    requires x != []
    ensures Prepend(c, x + y) == Prepend(c, x) + y
  {
    assert (x + y)[0] == x[0] && (x + y)[1..] == x[1..] + y;
  }

  lemma {:induction false} SplitAtComma(a: string, b: string)
    ensures Split(a + "," + b) == Split(a) + Split(b)
  {
    var s := a + "," + b;
    SplitHead(s);
    if a == "" {
      assert s[0] == ',' && s[1..] == b;
    } else {
      SplitHead(a);
      assert s[0] == a[0] && s[1..] == a[1..] + "," + b;
      SplitAtComma(a[1..], b);
      hide Split, Prepend;
      PrependAppend(a[0], Split(a[1..]), Split(b));
    }
  }

  lemma SplitHead(s: string)
    requires s != ""
    ensures Split(s) == Prepend(s[0], Split(s[1..]))
  {}

  /** Splitting what was joined gives the parts back, unless there were none. */
  lemma {:induction false} SplitOfJoin(parts: seq<string>)
    requires parts != [] && forall i | 0 <= i < |parts| :: Plain(parts[i])
    ensures Split(Join(parts)) == parts
  {
    hide Split;
    SplitPlain(parts[0]);
    if |parts| > 1 {
      var rest := parts[1..];
      assert forall i | 0 <= i < |rest| :: rest[i] == parts[i + 1];
      SplitOfJoin(rest);
      SplitAtComma(parts[0], Join(rest));
      assert Join(parts) == parts[0] + "," + Join(rest);
      hide Join;
      assert [parts[0]] + rest == parts;
    } else {
      assert parts == [parts[0]];
    }
  }

  /** The parts of a split are plain, so splitting and joining are inverse both ways. */
  lemma {:induction false} SplitGivesPlain(s: string)
    ensures forall i | 0 <= i < |Split(s)| :: Plain(Split(s)[i])
  {
    if s != "" {
      SplitGivesPlain(s[1..]);
      SplitHead(s);
    }
  }

  // -------- adding and removing --------

  predicate Ours(e: EnvVar) { e.name == VARIABLE_NAME }

  predicate Lists(value: string, ns: string) { ns in Split(value) }

  function Extended(value: string, ns: string): string {
    if Lists(value, ns) then value else if value == "" then ns else value + "," + ns
  }

  // Without the first occurrence.
  function Drop(parts: seq<string>, x: string): seq<string> {
    if parts == [] then []
    else if parts[0] == x then parts[1..]
    else [parts[0]] + Drop(parts[1..], x)
  }

  function Reduced(value: string, ns: string): string {
    if Lists(value, ns) then Join(Drop(Split(value), ns)) else value
  }

  predicate HasOurs(env: seq<EnvVar>) {
    exists i | 0 <= i < |env| :: Ours(env[i])
  }

  function FirstOurs(env: seq<EnvVar>): (k: nat)
    requires HasOurs(env)
    ensures k < |env| && Ours(env[k]) && forall i | 0 <= i < k :: !Ours(env[i])
  {
    if Ours(env[0]) then 0
    else
      assert HasOurs(env[1..]) by {
        var i :| 0 <= i < |env| && Ours(env[i]);
        assert Ours(env[1..][i - 1]);
      }
      1 + FirstOurs(env[1..])
  }

  // The first entry of the variable is extended.
  function ExtendFirst(env: seq<EnvVar>, ns: string): seq<EnvVar>
    requires HasOurs(env)
  {
    var k := FirstOurs(env);
    env[k := env[k].(value := Extended(env[k].value, ns))]
  }

  function Added(env: seq<EnvVar>, ns: string): seq<EnvVar> {
    if HasOurs(env) then ExtendFirst(env, ns) else env + [EnvVar(VARIABLE_NAME, ns)]
  }

  function ReducedEntry(e: EnvVar, ns: string): EnvVar {
    if Ours(e) then e.(value := Reduced(e.value, ns)) else e
  }

  // Every entry of the variable loses the namespace.
  function Removed(env: seq<EnvVar>, ns: string): (r: seq<EnvVar>)
    ensures |r| == |env|
    ensures forall i | 0 <= i < |r| :: r[i] == ReducedEntry(env[i], ns)
  {
    if env == [] then [] else [ReducedEntry(env[0], ns)] + Removed(env[1..], ns)
  }

  predicate ListedByUs(env: seq<EnvVar>, ns: string) {
    exists i | 0 <= i < |env| :: Ours(env[i]) && Lists(env[i].value, ns)
  }

  // What a namespace name is: not empty, without a comma.
  predicate IsName(ns: string) { ns != "" && Plain(ns) }

  lemma {:induction false} DropLast(parts: seq<string>, x: string)
    requires x !in parts
    ensures Drop(parts + [x], x) == parts
  {
    if parts == [] {
      assert parts + [x] == [x];
    } else {
      assert (parts + [x])[0] == parts[0] && (parts + [x])[1..] == parts[1..] + [x];
      DropLast(parts[1..], x);
    }
  }

  lemma ExtendedLists(value: string, ns: string)
    requires IsName(ns)
    ensures Lists(Extended(value, ns), ns)
  {
    SplitPlain(ns);
    if value != "" {
      SplitAtComma(value, ns);
    }
  }

  lemma ReducedUndoesExtended(value: string, ns: string)
    requires IsName(ns) && !Lists(value, ns)
    ensures Reduced(Extended(value, ns), ns) == value
  {
    ExtendedLists(value, ns);
    SplitPlain(ns);
    if value == "" {
      DropLast([], ns);
    } else {
      SplitAtComma(value, ns);
      DropLast(Split(value), ns);
      JoinOfSplit(value);
    }
  }

  lemma {:induction false} JoinLength(parts: seq<string>, x: string)
    requires x in parts
    ensures |Join(Drop(parts, x))| + |x| <= |Join(parts)|
  {
    if parts[0] != x {
      JoinLength(parts[1..], x);
      var d := Drop(parts[1..], x);
      assert ([parts[0]] + d)[1..] == d;
    }
  }

  lemma ReducedShrinks(value: string, ns: string)
    requires IsName(ns) && Lists(value, ns)
    ensures Reduced(value, ns) != value
  {
    JoinOfSplit(value);
    JoinLength(Split(value), ns);
  }

  lemma RoundTripWorks(env: seq<EnvVar>, ns: string)
    requires IsName(ns) && HasOurs(env) && !ListedByUs(env, ns)
    ensures Removed(Added(env, ns), ns) == env
  {
    var k := FirstOurs(env);
    var a := Added(env, ns);
    ReducedUndoesExtended(env[k].value, ns);
    hide Extended, Lists, Reduced, FirstOurs;
    forall i | 0 <= i < |env| ensures Removed(a, ns)[i] == env[i] {
      if i != k && Ours(env[i]) {
        StaysIfUnlisted(env[i].value, ns);
      }
    }
  }

  lemma StaysIfUnlisted(value: string, ns: string)
    requires !Lists(value, ns)
    ensures Reduced(value, ns) == value
  {}

  // Adding touches no entry that already lists the namespace.
  lemma ListedStays(env: seq<EnvVar>, ns: string, i: nat)
    requires i < |env| && Ours(env[i]) && Lists(env[i].value, ns)
    ensures |Added(env, ns)| == |env| && Added(env, ns)[i] == env[i]
  {
    hide FirstOurs, Lists;
  }

  // The parts with the one at place `k` taken out.
  function WithoutAt(parts: seq<string>, k: nat): seq<string>
    requires k < |parts|
  {
    parts[..k] + parts[k + 1..]
  }

  lemma {:induction false} DropByPlace(parts: seq<string>, x: string, k: nat)
    requires k < |parts| && parts[k] == x && x !in parts[..k]
    ensures Drop(parts, x) == WithoutAt(parts, k)
  {
    if k > 0 {
      assert parts[0] == parts[..k][0] && parts[1..][..k - 1] == parts[..k][1..];
      DropByPlace(parts[1..], x, k - 1);
      assert WithoutAt(parts, k) == [parts[0]] + WithoutAt(parts[1..], k - 1);
    } else {
      assert WithoutAt(parts, 0) == parts[1..];
    }
  }

  /** What becomes of the list of namespaces in one entry: adding appends the namespace
      unless it is there, and removing takes out its first occurrence. */
  lemma EntryByParts(value: string, ns: string)
    requires IsName(ns)
    ensures Split(Extended(value, ns)) ==
      if ns in Split(value) then Split(value) else if value == "" then [ns] else Split(value) + [ns]
    ensures ns !in Split(value) ==> Reduced(value, ns) == value
    ensures forall k: nat | k < |Split(value)| && Split(value)[k] == ns && ns !in Split(value)[..k] ::
        Reduced(value, ns) == Join(WithoutAt(Split(value), k))
  {
    SplitPlain(ns);
    if value != "" && ns !in Split(value) {
      SplitAtComma(value, ns);
    }
    forall k: nat | k < |Split(value)| && Split(value)[k] == ns && ns !in Split(value)[..k]
      ensures Reduced(value, ns) == Join(WithoutAt(Split(value), k))
    {
      DropByPlace(Split(value), ns, k);
    }
  }

  // The entry with its value changed.
  ghost predicate Revalued(e: EnvVar, f: EnvVar, value: string) { f == EnvVar(e.name, value) }

  /** Adding changes the first entry of the variable alone, or appends one; removing
      changes every entry of it, and no other. */
  lemma ByEntries(env: seq<EnvVar>, ns: string)
    ensures forall k: nat | k < |env| && env[k].name == "ARGOCD_CLUSTER_CONFIG_NAMESPACES"
        && (forall i | 0 <= i < k :: env[i].name != "ARGOCD_CLUSTER_CONFIG_NAMESPACES") ::
        && |Added(env, ns)| == |env| && Revalued(env[k], Added(env, ns)[k], Extended(env[k].value, ns))
        && forall i | 0 <= i < |env| && i != k :: Added(env, ns)[i] == env[i]
    ensures (forall i | 0 <= i < |env| :: env[i].name != "ARGOCD_CLUSTER_CONFIG_NAMESPACES") ==>
        Added(env, ns) == env + [EnvVar("ARGOCD_CLUSTER_CONFIG_NAMESPACES", ns)]
    ensures forall i | 0 <= i < |env| ::
        if env[i].name == "ARGOCD_CLUSTER_CONFIG_NAMESPACES" then
          Revalued(env[i], Removed(env, ns)[i], Reduced(env[i].value, ns))
        else Removed(env, ns)[i] == env[i]
  {
    hide Extended, Reduced;
    if HasOurs(env) {
      var k := FirstOurs(env);
      assert env[k].name == "ARGOCD_CLUSTER_CONFIG_NAMESPACES";
    }
  }

  /** Removing undoes adding exactly when the variable has an entry and none of its
      entries lists the namespace already. */
  lemma RemoveUndoesAddExactlyWhen(env: seq<EnvVar>, ns: string)
    requires IsName(ns)
    ensures Removed(Added(env, ns), ns) == env <==> HasOurs(env) && !ListedByUs(env, ns)
  {
    hide Lists, Reduced, ExtendFirst;
    if HasOurs(env) && !ListedByUs(env, ns) {
      RoundTripWorks(env, ns);
    } else if ListedByUs(env, ns) {
      var i: nat :| i < |env| && Ours(env[i]) && Lists(env[i].value, ns);
      ListedStays(env, ns, i);
      ReducedShrinks(env[i].value, ns);
      assert Removed(Added(env, ns), ns)[i] != env[i];
    } else {
      assert |Removed(Added(env, ns), ns)| == |env| + 1;
    }
  }

  /** Without an entry, adding and removing leaves one empty entry at the end. */
  lemma AbsentEndsEmpty(env: seq<EnvVar>, ns: string)
    requires IsName(ns) && !HasOurs(env)
    ensures Removed(Added(env, ns), ns) == env + [EnvVar(VARIABLE_NAME, "")]
  {
    SplitPlain(ns);
    DropLast([], ns);
    assert [] + [ns] == [ns];
    var a := Added(env, ns);
    forall i | 0 <= i < |env| ensures Removed(a, ns)[i] == env[i] {
      assert !Ours(env[i]);
    }
  }

  /** Adding twice is adding once. */
  lemma AddIsIdempotent(env: seq<EnvVar>, ns: string)
    requires IsName(ns)
    ensures Added(Added(env, ns), ns) == Added(env, ns)
  {
    hide FirstOurs, Extended, Lists;
    var a := Added(env, ns);
    var k := if HasOurs(env) then FirstOurs(env) else |env|;
    assert Ours(a[k]) && forall i | 0 <= i < k :: a[i] == env[i] && !Ours(a[i]);
    assert FirstOurs(a) == k;
    if HasOurs(env) {
      ExtendedTwice(env[k].value, ns);
    } else {
      ListedAlone(ns);
    }
  }

  lemma ExtendedTwice(value: string, ns: string)
    requires IsName(ns)
    ensures Extended(Extended(value, ns), ns) == Extended(value, ns)
  {
    ExtendedLists(value, ns);
  }

  lemma ListedAlone(ns: string)
    requires IsName(ns)
    ensures Extended(ns, ns) == ns
  {
    SplitPlain(ns);
  }

  // The entries of other variables, in order.
  function Others(env: seq<EnvVar>): seq<EnvVar> {
    if env == [] then [] else (if Ours(env[0]) then [] else [env[0]]) + Others(env[1..])
  }

  lemma {:induction false} OthersOfRemoved(env: seq<EnvVar>, ns: string)
    ensures Others(Removed(env, ns)) == Others(env)
  {
    hide Reduced;
    if env != [] {
      OthersOfRemoved(env[1..], ns);
      assert Removed(env, ns)[1..] == Removed(env[1..], ns);
    }
  }

  lemma {:induction false} OthersOfUpdate(env: seq<EnvVar>, k: nat, e: EnvVar)
    requires k < |env| && Ours(env[k]) && Ours(e)
    ensures Others(env[k := e]) == Others(env)
  {
    if k == 0 {
      assert env[0 := e] == [e] + env[1..];
    } else {
      assert env[k := e] == [env[0]] + env[1..][k - 1 := e];
      OthersOfUpdate(env[1..], k - 1, e);
    }
  }

  lemma {:induction false} OthersAppend(env: seq<EnvVar>, e: EnvVar)
    requires Ours(e)
    ensures Others(env + [e]) == Others(env)
  {
    if env == [] {
      assert env + [e] == [e];
    } else {
      assert (env + [e])[0] == env[0] && (env + [e])[1..] == env[1..] + [e];
      OthersAppend(env[1..], e);
    }
  }

  /** Neither operation touches, drops or reorders another variable. */
  lemma OtherVariablesUntouched(env: seq<EnvVar>, ns: string)
    ensures Others(Added(env, ns)) == Others(env) && Others(Removed(env, ns)) == Others(env)
  {
    OthersOfRemoved(env, ns);
    if HasOurs(env) {
      var k := FirstOurs(env);
      OthersOfUpdate(env, k, env[k].(value := Extended(env[k].value, ns)));
    }
    hide FirstOurs, Extended;
    OthersAppend(env, EnvVar(VARIABLE_NAME, ns));
  }

  // -------- the subscription --------

  /** The operator's subscription, its environment edited in place. */
  class Subscription {
    var config: Option<seq<EnvVar>>

    constructor (config: Option<seq<EnvVar>>)
      ensures this.config == config
    {
      this.config := config;
    }

    // containsEnvVar.
    method ContainsEnvVar() returns (found: bool)
      requires config.Some?
      ensures found <==> HasOurs(config.value)
    {
      var env := config.value;
      for i := 0 to |env|
        invariant forall j | 0 <= j < i :: !Ours(env[j])
      {
        if env[i].name == VARIABLE_NAME {
          return true;
        }
      }
      found := false;
    }

    /** The branch of Reconcile that adds the namespace. */
    method AddNamespace()
      modifies this
      ensures config == Some(Added(if old(config).Some? then old(config).value else [], "cluster-aas-operator"))
    {
      if config.None? {
        config := Some([]);
      }
      var found := ContainsEnvVar();
      var env := config.value;
      if !found {
        config := Some(env + [EnvVar(VARIABLE_NAME, OWN_NAMESPACE)]);
        return;
      }
      for i := 0 to |env|
        invariant config == Some(env)
        invariant forall j | 0 <= j < i :: !Ours(env[j])
      {
        if env[i].name == VARIABLE_NAME {
          var value := env[i].value;
          if OWN_NAMESPACE !in Split(value) {
            value := if value == "" then OWN_NAMESPACE else value + "," + OWN_NAMESPACE;
          }
          assert i == FirstOurs(env) && value == Extended(env[i].value, OWN_NAMESPACE);
          config := Some(env[i := env[i].(value := value)]);
          return;
        }
      }
    }

    // slices.Index.
    static method IndexOf(parts: seq<string>, x: string) returns (index: int)
      ensures index == -1 <==> x !in parts
      ensures index != -1 ==> 0 <= index < |parts| && Drop(parts, x) == parts[..index] + parts[index + 1..]
    {
      var i := 0;
      while i < |parts|
        invariant 0 <= i <= |parts|
        invariant x !in parts[..i]
        invariant Drop(parts, x) == parts[..i] + Drop(parts[i..], x)
      {
        assert parts[i..][0] == parts[i] && parts[i..][1..] == parts[i + 1..];
        if parts[i] == x {
          return i;
        }
        assert parts[..i + 1] == parts[..i] + [parts[i]];
        assert parts[..i] + ([parts[i]] + Drop(parts[i + 1..], x)) == parts[..i + 1] + Drop(parts[i + 1..], x);
        i := i + 1;
      }
      assert parts[..|parts|] == parts;
      index := -1;
    }

    static method ReduceEntry(e: EnvVar) returns (reduced: EnvVar)
      ensures reduced == ReducedEntry(e, OWN_NAMESPACE)
    {
      reduced := e;
      if e.name == VARIABLE_NAME {
        var values := Split(e.value);
        var index := IndexOf(values, OWN_NAMESPACE);
        if index != -1 {
          reduced := e.(value := Join(values[..index] + values[index + 1..]));
        }
      }
    }

    /** The branch of Reconcile that takes the namespace out again. */
    method RemoveNamespace()
      modifies this
      ensures config == if old(config).None? then None else Some(Removed(old(config).value, "cluster-aas-operator"))
    {
      hide Removed, ReducedEntry;
      if config.None? {
        return;
      }
      var env := config.value;
      var newSlice: seq<EnvVar> := [];
      for i := 0 to |env|
        invariant config == Some(env)
        invariant |newSlice| == i && forall j | 0 <= j < i :: newSlice[j] == ReducedEntry(env[j], OWN_NAMESPACE)
      {
        var n := ReduceEntry(env[i]);
        newSlice := newSlice + [n];
      }
      assert newSlice == Removed(env, OWN_NAMESPACE);
      config := Some(newSlice);
    }
  }
}
