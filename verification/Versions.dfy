/** Version selection in the definitions of a directory (engine/dsl/loader.go:76-145). */
module Versions {
  import opened Model
  import opened Machine

  // ---- text --------------------------------------------------------------

  /** `strings.Split(s, ".")`. */
  function Split(s: string): (r: seq<string>)
    ensures r != []
  {
    if s == "" then [""]
    else
      var r := Split(s[1..]);
      if s[0] == '.' then [""] + r else [[s[0]] + r[0]] + r[1..]
  }

  function Join(parts: seq<string>): string
    requires parts != []
  {
    if |parts| == 1 then parts[0] else parts[0] + "." + Join(parts[1..])
  }

  /** Split cuts at every dot, and only there. */
  lemma {:induction false} SplitJoins(s: string)
    ensures Join(Split(s)) == s
    ensures forall k :: 0 <= k < |Split(s)| ==> '.' !in Split(s)[k]
  {
    if s != "" {
      SplitJoins(s[1..]);
      var r := Split(s[1..]);
      if s[0] == '.' {
        assert ([""] + r)[1..] == r;
      } else {
        var t := [[s[0]] + r[0]] + r[1..];
        assert t[1..] == r[1..];
        forall k | 0 <= k < |t| ensures '.' !in t[k] {
          if k > 0 { assert t[k] == r[k]; }
        }
      }
    }
  }

  function DigitsFrom(s: string, acc: nat): Option<nat> {
    if s == "" then Some(acc)
    else if '0' <= s[0] <= '9' then DigitsFrom(s[1..], 10 * acc + (s[0] - '0') as nat)
    else None
  }

  const MIN_INT: int := -0x8000_0000_0000_0000
  const MAX_INT: int := 0x7fff_ffff_ffff_ffff

  /** `strconv.Atoi`: an optional sign, at least one digit, a 64-bit value. */
  function Atoi(s: string): Option<int> {
    var signed := s != "" && (s[0] == '-' || s[0] == '+');
    var digits := if signed then s[1..] else s;
    if digits == "" then None
    else
      match DigitsFrom(digits, 0)
      case None => None
      case Some(n) =>
        var v: int := if signed && s[0] == '-' then 0 - n else n;
        if MIN_INT <= v <= MAX_INT then Some(v) else None
  }

  /** `a < b` on strings. */
  predicate Before(a: string, b: string) {
    b != "" && (a == "" || a[0] < b[0] || (a[0] == b[0] && Before(a[1..], b[1..])))
  }

  /** The order of texts: by the first character that differs, a prefix before what it begins. */
  lemma {:induction false} BeforeIff(a: string, b: string)
    ensures Before(a, b) <==>
              exists k: nat :: k <= |a| && k < |b| && a[..k] == b[..k] && (k < |a| ==> a[k] < b[k])
  {
    if a != "" && b != "" && a[0] == b[0] {
      var x, y := a[1..], b[1..];
      BeforeIff(x, y);
      forall k: nat | k <= |x| && k < |y|
        ensures x[..k] == y[..k] <==> a[..k + 1] == b[..k + 1]
      {
        assert a[..k + 1] == [a[0]] + x[..k] && b[..k + 1] == [b[0]] + y[..k];
        if a[..k + 1] == b[..k + 1] { assert x[..k] == a[..k + 1][1..] == b[..k + 1][1..] == y[..k]; }
      }
      if k: nat :| k <= |a| && k < |b| && a[..k] == b[..k] && (k < |a| ==> a[k] < b[k]) {
        assert k > 0;
        assert x[..k - 1] == y[..k - 1];
      }
      if k: nat :| k <= |x| && k < |y| && x[..k] == y[..k] && (k < |x| ==> x[k] < y[k]) {
        assert a[..k + 1] == b[..k + 1];
      }
    } else if a != "" && b != "" {
      assert forall k: nat :: 0 < k <= |a| && k < |b| ==> a[..k][0] != b[..k][0];
      assert a[..0] == b[..0];
    } else {
      assert a[..0] == b[..0];
    }
  }

  lemma {:induction false} BeforeTotal(a: string, b: string)
    ensures a != b ==> (Before(a, b) <==> !Before(b, a))
    ensures !Before(a, a)
  {
    if a != "" && b != "" && a[0] == b[0] {
      BeforeTotal(a[1..], b[1..]);
      assert a == [a[0]] + a[1..] && b == [b[0]] + b[1..];
    }
    if a != "" { BeforeTotal(a[1..], a[1..]); }
  }

  lemma {:induction false} BeforeTransitive(a: string, b: string, c: string)
    requires Before(a, b) && Before(b, c)
    ensures Before(a, c)
  {
    if a != "" && a[0] == b[0] == c[0] { BeforeTransitive(a[1..], b[1..], c[1..]); }
  }

  // ---- compareVersions ---------------------------------------------------

  /** The i-th component, "0" past the end. */
  function Component(parts: seq<string>, i: nat): string {
    if i < |parts| then parts[i] else "0"
  }

  function Sign(less: bool): int {
    if less then -1 else 1
  }

  function CompareComponents(a: string, b: string): int {
    var x, y := Atoi(a), Atoi(b);
    if x.Some? && y.Some? then (if x.value == y.value then 0 else Sign(x.value < y.value))
    else if a == b then 0 else Sign(Before(a, b))
  }

  /** The first difference from component i on, below n. */
  function CompareFrom(a: seq<string>, b: seq<string>, i: nat, n: nat): int
    decreases n - i
  {
    if i >= n then 0
    else
      var c := CompareComponents(Component(a, i), Component(b, i));
      if c != 0 then c else CompareFrom(a, b, i + 1, n)
  }

  function Longer(a: seq<string>, b: seq<string>): nat {
    if |b| > |a| then |b| else |a|
  }

  function Compare(a: string, b: string): int {
    CompareFrom(Split(a), Split(b), 0, Longer(Split(a), Split(b)))
  }

  method CompareVersions(a: string, b: string) returns (r: int)
    ensures r == Compare(a, b)
  {
    var xs, ys := Split(a), Split(b);
    var n := |xs|;
    if |ys| > n { n := |ys|; }
    for i := 0 to n
      invariant Compare(a, b) == CompareFrom(xs, ys, i, n)
    {
      var av, bv := "0", "0";
      if i < |xs| { av := xs[i]; }
      if i < |ys| { bv := ys[i]; }
      var ai, bi := Atoi(av), Atoi(bv);
      if ai.Some? && bi.Some? {
        if ai.value != bi.value {
          if ai.value < bi.value { return -1; }
          return 1;
        }
        continue;
      }
      if av != bv {
        if Before(av, bv) { return -1; }
        return 1;
      }
    }
    r := 0;
  }

  // ---- the order ---------------------------------------------------------

  lemma {:induction false} CompareFromAntisymmetric(a: seq<string>, b: seq<string>, i: nat, n: nat)
    ensures CompareFrom(a, b, i, n) == -CompareFrom(b, a, i, n)
    decreases n - i
  {
    if i < n {
      BeforeTotal(Component(a, i), Component(b, i));
      CompareFromAntisymmetric(a, b, i + 1, n);
    }
  }

  /** Exchanging the arguments turns the sign, for all strings. */
  lemma Antisymmetric(a: string, b: string)
    ensures Compare(a, b) == -Compare(b, a)
  {
    CompareFromAntisymmetric(Split(a), Split(b), 0, Longer(Split(a), Split(b)));
  }

  /** The comparison of components is transitive on T. */
  ghost predicate TransitiveOn(T: set<string>) {
    forall a, b, c :: a in T && b in T && c in T && CompareComponents(a, b) <= 0 && CompareComponents(b, c) <= 0 ==>
      CompareComponents(a, c) <= 0
  }

  /** Numbers compare by value, but each of them with z as text: y comes before z and z before x, with x <= y. */
  predicate Cycle(x: string, y: string, z: string) {
    && Atoi(x).Some? && Atoi(y).Some? && Atoi(z).None? && Atoi(x).value <= Atoi(y).value
    && Before(y, z) && Before(z, x)
  }

  /** No text in T lies between numbers of T that are in order by value and not as text. */
  ghost predicate NoCycle(T: set<string>) {
    forall x, y, z :: x in T && y in T && z in T ==> !Cycle(x, y, z)
  }

  lemma ComponentsTransitive(a: string, b: string, c: string)
    requires CompareComponents(a, b) <= 0 && CompareComponents(b, c) <= 0
    requires !Cycle(a, b, c) && !Cycle(c, a, b) && !Cycle(b, c, a)
    ensures CompareComponents(a, c) <= 0
    ensures CompareComponents(a, b) < 0 || CompareComponents(b, c) < 0 ==> CompareComponents(a, c) < 0
  {
    hide Atoi, Before;
    BeforeTotal(a, b);
    BeforeTotal(b, c);
    BeforeTotal(a, c);
    if Before(a, b) && Before(b, c) { BeforeTransitive(a, b, c); }
  }

  lemma ComponentsAntisymmetric(a: string, b: string)
    ensures CompareComponents(a, b) == -CompareComponents(b, a)
  {
    BeforeTotal(a, b);
  }

  /** Exactly the cycles of two numbers and a text stand in the way of transitivity. */
  lemma TransitiveIff(T: set<string>)
    ensures TransitiveOn(T) <==> NoCycle(T)
  {
    hide Cycle, CompareComponents;
    if NoCycle(T) {
      forall a, b, c | a in T && b in T && c in T && CompareComponents(a, b) <= 0 && CompareComponents(b, c) <= 0
        ensures CompareComponents(a, c) <= 0
      {
        ComponentsTransitive(a, b, c);
      }
    }
    if x, y, z :| x in T && y in T && z in T && Cycle(x, y, z) {
      CycleCompares(x, y, z);
      ComponentsAntisymmetric(x, z);
      assert CompareComponents(x, z) > 0;
    }
  }

  lemma CycleCompares(x: string, y: string, z: string)
    requires Cycle(x, y, z)
    ensures CompareComponents(x, y) <= 0 && CompareComponents(y, z) < 0 && CompareComponents(z, x) < 0
  {
  }

  /** Every component of the version is in T. */
  predicate Over(T: set<string>, v: string) {
    forall i :: 0 <= i < |Split(v)| ==> Split(v)[i] in T
  }

  /** Padding both versions further changes nothing. */
  lemma {:induction false} PaddingCompares(a: seq<string>, b: seq<string>, i: nat, n: nat)
    requires n >= Longer(a, b)
    ensures CompareFrom(a, b, i, n) == CompareFrom(a, b, i, Longer(a, b))
    decreases n - i
  {
    if i < n {
      PaddingCompares(a, b, i + 1, n);
      if i >= Longer(a, b) { assert CompareComponents("0", "0") == 0; }
    }
  }

  lemma {:induction false} FirstDifferences(T: set<string>, a: seq<string>, b: seq<string>, c: seq<string>, i: nat,
        n: nat)
    requires NoCycle(T) && "0" in T
    requires forall k: nat :: Component(a, k) in T && Component(b, k) in T && Component(c, k) in T
    requires CompareFrom(a, b, i, n) <= 0 && CompareFrom(b, c, i, n) <= 0
    ensures CompareFrom(a, c, i, n) <= 0
    ensures CompareFrom(a, b, i, n) < 0 || CompareFrom(b, c, i, n) < 0 ==> CompareFrom(a, c, i, n) < 0
    decreases n - i
  {
    hide CompareComponents, Cycle, Component;
    if i < n {
      var x, y, z := Component(a, i), Component(b, i), Component(c, i);
      ComponentsTransitive(x, y, z);
      if CompareComponents(x, y) == 0 && CompareComponents(y, z) == 0 {
        ComponentsAntisymmetric(x, y);
        ComponentsAntisymmetric(y, z);
        ComponentsTransitive(z, y, x);
        ComponentsAntisymmetric(x, z);
        FirstDifferences(T, a, b, c, i + 1, n);
      }
    }
  }

  /** On the versions over such components, too, the order is transitive. */
  lemma Transitive(T: set<string>, a: string, b: string, c: string)
    requires NoCycle(T) && "0" in T && Over(T, a) && Over(T, b) && Over(T, c)
    requires Compare(a, b) <= 0 && Compare(b, c) <= 0
    ensures Compare(a, c) <= 0
    ensures Compare(a, b) < 0 || Compare(b, c) < 0 ==> Compare(a, c) < 0
  {
    hide NoCycle;
    var x, y, z := Split(a), Split(b), Split(c);
    var n := |x| + |y| + |z|;
    PaddingCompares(x, y, 0, n);
    PaddingCompares(y, z, 0, n);
    PaddingCompares(x, z, 0, n);
    FirstDifferences(T, x, y, z, 0, n);
  }

  ghost predicate VersionsTransitive(T: set<string>) {
    forall a, b, c :: Over(T, a) && Over(T, b) && Over(T, c) && Compare(a, b) <= 0 && Compare(b, c) <= 0 ==>
      Compare(a, c) <= 0
  }

  /** And only on those: a component is a version. */
  lemma VersionsTransitiveIff(T: set<string>)
    requires "0" in T && forall s :: s in T ==> '.' !in s
    ensures VersionsTransitive(T) <==> NoCycle(T)
  {
    if NoCycle(T) {
      forall a, b, c | Over(T, a) && Over(T, b) && Over(T, c) && Compare(a, b) <= 0 && Compare(b, c) <= 0
        ensures Compare(a, c) <= 0
      {
        Transitive(T, a, b, c);
      }
    }
    if x, y, z :| x in T && y in T && z in T && Cycle(x, y, z) {
      CycleCompares(x, y, z);
      ComponentsAntisymmetric(x, z);
      Lone(x, y);
      Lone(y, z);
      Lone(x, z);
    }
  }

  lemma Lone(a: string, b: string)
    requires '.' !in a && '.' !in b
    ensures Compare(a, b) == CompareComponents(a, b) && Split(a) == [a] && Split(b) == [b]
  {
    NoDots(a);
    NoDots(b);
  }

  lemma {:induction false} NoDots(s: string)
    requires '.' !in s
    ensures Split(s) == [s]
  {
    if s != "" {
      NoDots(s[1..]);
      assert [s[0]] + s[1..] == s;
    }
  }

  // ---- versions of numbers -----------------------------------------------

  /** Every dotted component is a number. */
  predicate AllNumeric(parts: seq<string>) {
    forall i :: 0 <= i < |parts| ==> Atoi(parts[i]).Some?
  }

  predicate Numeric(v: string) {
    AllNumeric(Split(v))
  }

  /** The value of the i-th component, 0 past the end. */
  function Value(parts: seq<string>, i: nat): int
    requires AllNumeric(parts)
  {
    if i < |parts| then Atoi(parts[i]).value else 0
  }

  lemma ZeroIsNumeric()
    ensures Atoi("0") == Some(0)
  {
    assert "0"[1..] == "";
  }

  predicate AgreeBelow(a: seq<string>, b: seq<string>, i: nat, j: nat)
    requires AllNumeric(a) && AllNumeric(b)
  {
    forall k: nat :: i <= k < j ==> Value(a, k) == Value(b, k)
  }

  /** a and b first differ at component j, where a is smaller. */
  predicate SmallerAt(a: seq<string>, b: seq<string>, i: nat, j: nat)
    requires AllNumeric(a) && AllNumeric(b)
  {
    i <= j && AgreeBelow(a, b, i, j) && Value(a, j) < Value(b, j)
  }

  lemma ComponentsByValue(a: seq<string>, b: seq<string>, i: nat)
    requires AllNumeric(a) && AllNumeric(b)
    ensures CompareComponents(Component(a, i), Component(b, i)) ==
              if Value(a, i) == Value(b, i) then 0 else Sign(Value(a, i) < Value(b, i))
  {
    ZeroIsNumeric();
  }

  lemma SmallerEarlier(a: seq<string>, b: seq<string>, i: nat, j: nat)
    requires AllNumeric(a) && AllNumeric(b) && Value(a, i) == Value(b, i) && SmallerAt(a, b, i + 1, j)
    ensures SmallerAt(a, b, i, j)
  {
  }

  /** On numeric versions the comparison is by the first component whose values differ. */
  lemma {:induction false} CompareByValue(a: seq<string>, b: seq<string>, i: nat, n: nat)
    requires AllNumeric(a) && AllNumeric(b) && n >= |a| && n >= |b|
    ensures CompareFrom(a, b, i, n) == 0 ==> forall j: nat :: i <= j ==> Value(a, j) == Value(b, j)
    ensures CompareFrom(a, b, i, n) < 0 ==> exists j: nat :: SmallerAt(a, b, i, j)
    ensures CompareFrom(a, b, i, n) > 0 ==> exists j: nat :: SmallerAt(b, a, i, j)
    decreases n - i
  {
    if i < n {
      hide CompareComponents, Component, AllNumeric, AgreeBelow;
      ComponentsByValue(a, b, i);
      if Value(a, i) < Value(b, i) {
        FirstSmaller(a, b, i);
      } else if Value(a, i) > Value(b, i) {
        FirstSmaller(b, a, i);
      } else {
        hide SmallerAt;
        var h := i + 1;
        CompareByValue(a, b, h, n);
        if j: nat :| SmallerAt(a, b, h, j) { SmallerEarlier(a, b, i, j); }
        if j: nat :| SmallerAt(b, a, h, j) { SmallerEarlier(b, a, i, j); }
      }
    }
  }

  lemma FirstSmaller(a: seq<string>, b: seq<string>, i: nat)
    requires AllNumeric(a) && AllNumeric(b) && Value(a, i) < Value(b, i)
    ensures SmallerAt(a, b, i, i)
  {
  }

  lemma OneWay(a: seq<string>, b: seq<string>, j: nat, k: nat)
    requires AllNumeric(a) && AllNumeric(b) && SmallerAt(a, b, 0, j)
    ensures !SmallerAt(b, a, 0, k)
  {
    assert k < j ==> Value(a, k) == Value(b, k);
  }

  /** ... and only by that. */
  lemma SmallerCompares(a: seq<string>, b: seq<string>, j: nat)
    requires AllNumeric(a) && AllNumeric(b) && SmallerAt(a, b, 0, j)
    ensures CompareFrom(a, b, 0, Longer(a, b)) < 0
  {
    forall k: nat ensures !SmallerAt(b, a, 0, k) { OneWay(a, b, j, k); }
    CompareByValue(a, b, 0, Longer(a, b));
  }

  lemma SameValuesCompare(a: seq<string>, b: seq<string>)
    requires AllNumeric(a) && AllNumeric(b) && forall j: nat :: Value(a, j) == Value(b, j)
    ensures CompareFrom(a, b, 0, Longer(a, b)) == 0
  {
    assert forall j: nat :: !SmallerAt(a, b, 0, j) && !SmallerAt(b, a, 0, j);
    CompareByValue(a, b, 0, Longer(a, b));
  }

  // ---- ties --------------------------------------------------------------

  function Values(parts: seq<string>): (r: seq<int>)
    requires AllNumeric(parts)
    ensures |r| == |parts| && forall i :: 0 <= i < |r| ==> r[i] == Value(parts, i)
  {
    seq(|parts|, i requires 0 <= i < |parts| => Value(parts, i))
  }

  /** Without trailing zero components. */
  function Trim(v: seq<int>): seq<int> {
    if v == [] || v[|v| - 1] != 0 then v else Trim(v[..|v| - 1])
  }

  function Padded(v: seq<int>, i: nat): int {
    if i < |v| then v[i] else 0
  }

  lemma {:induction false} TrimPads(v: seq<int>)
    ensures forall i: nat :: Padded(Trim(v), i) == Padded(v, i)
    ensures Trim(v) != [] ==> Trim(v)[|Trim(v)| - 1] != 0
    decreases |v|
  {
    if v != [] && v[|v| - 1] == 0 {
      TrimPads(v[..|v| - 1]);
      forall i: nat ensures Padded(Trim(v), i) == Padded(v, i) {
        assert Padded(v[..|v| - 1], i) == Padded(v, i);
      }
    }
  }

  lemma SamePaddedSameTrim(v: seq<int>, w: seq<int>)
    requires forall i: nat :: Padded(v, i) == Padded(w, i)
    ensures Trim(v) == Trim(w)
  {
    TrimPads(v);
    TrimPads(w);
    var x, y := Trim(v), Trim(w);
    assert forall i: nat :: Padded(x, i) == Padded(v, i) == Padded(w, i) == Padded(y, i);
    if y != [] {
      assert Padded(x, |y| - 1) == Padded(y, |y| - 1);
      assert |y| <= |x|;
    }
    if x != [] {
      assert Padded(x, |x| - 1) == Padded(y, |x| - 1);
      assert |x| <= |y|;
    }
    forall i | 0 <= i < |x| ensures x[i] == y[i] { assert Padded(x, i) == Padded(y, i); }
  }

  /** Numeric versions tie exactly when they are equal up to trailing zero components. */
  lemma TiesAreTrailingZeros(a: string, b: string)
    requires Numeric(a) && Numeric(b)
    ensures Compare(a, b) == 0 <==> Trim(Values(Split(a))) == Trim(Values(Split(b)))
  {
    var x, y := Split(a), Split(b);
    var v, w := Values(x), Values(y);
    assert forall i: nat :: Padded(v, i) == Value(x, i) && Padded(w, i) == Value(y, i);
    if Trim(v) == Trim(w) {
      TrimPads(v);
      TrimPads(w);
      assert forall i: nat :: Value(x, i) == Padded(v, i) == Padded(Trim(v), i) == Padded(w, i) == Value(y, i);
      SameValuesCompare(x, y);
    }
    if Compare(a, b) == 0 {
      CompareByValue(x, y, 0, Longer(x, y));
      SamePaddedSameTrim(v, w);
    }
  }

  /** The components 2, 10 and 1a are such a cycle: 2 < 10 < 1a < 2. */
  lemma NotTransitive()
    ensures Cycle("2", "10", "1a") && !VersionsTransitive({"0", "2", "10", "1a"})
    ensures Compare("2", "10") < 0 && Compare("10", "1a") < 0 && Compare("1a", "2") < 0
  {
    TwoTenText();
    hide Atoi, Before, Compare, VersionsTransitive;
    VersionsTransitiveIff({"0", "2", "10", "1a"});
    assert CompareComponents("2", "10") == Sign(true);
    Lone("2", "10");
    Lone("10", "1a");
    Lone("1a", "2");
  }

  lemma TwoTenText()
    ensures Atoi("2") == Some(2) && Atoi("10") == Some(10) && Atoi("1a") == None
    ensures Before("10", "1a") && Before("1a", "2")
  {
    assert Atoi("2") == Some(2) by { assert "2"[1..] == ""; }
    assert Atoi("10") == Some(10) by { assert "10"[1..] == "0" && "0"[1..] == ""; }
    assert Atoi("1a") == None by { assert "1a"[1..] == "a"; }
    assert Before("10", "1a") by { assert "10"[1..] == "0" && "1a"[1..] == "a"; }
    assert Before("1a", "2");
  }

  // ---- Latest, Resolve ---------------------------------------------------

  type Definitions = map<string, WorkflowDef>

  predicate Offers(defs: Definitions, name: string, w: WorkflowDef) {
    w.name == name && exists k :: k in defs && defs[k] == w
  }

  /** Each key of the map once: an order in which a loop may visit it. */
  ghost predicate IsOrder(defs: Definitions, order: seq<string>) {
    && (forall k :: k in defs <==> k in order)
    && Distinct(order)
  }

  /** w takes the place of the best definition so far. */
  predicate Beats(w: WorkflowDef, best: Option<WorkflowDef>) {
    best.None? || Compare(w.version, best.value.version) > 0
  }

  /** The best definition of the name once the keys were visited in this order. */
  function Best(defs: Definitions, name: string, order: seq<string>): (r: Option<WorkflowDef>)
    requires forall k :: k in order ==> k in defs
    ensures r.Some? ==> exists k :: k in order && defs[k] == r.value && r.value.name == name
    ensures r.None? <==> forall k :: k in order ==> defs[k].name != name
  {
    if order == [] then None
    else
      var w, best := defs[order[|order| - 1]], Best(defs, name, order[..|order| - 1]);
      assert order == order[..|order| - 1] + [order[|order| - 1]];
      if w.name == name && Beats(w, best) then Some(w) else best
  }

  /** `Latest`: the best definition in some order of the map. */
  method Latest(defs: Definitions, name: string) returns (best: Option<WorkflowDef>)
    ensures exists order :: IsOrder(defs, order) && best == Best(defs, name, order)
    ensures best.None? <==> forall k :: k in defs ==> defs[k].name != name
    ensures best.Some? ==> Offers(defs, name, best.value)
    ensures best.Some? && NoCycle(Parts(defs, name)) ==> Highest(defs, name, best.value)
  {
    best := None;
    ghost var order: seq<string> := [];
    var todo := defs.Keys;
    while todo != {}
      invariant todo <= defs.Keys
      invariant forall k :: k in order <==> k in defs && k !in todo
      invariant Distinct(order)
      invariant best == Best(defs, name, order)
      decreases todo
    {
      var key :| key in todo;
      todo := todo - {key};
      var w := defs[key];
      ghost var seen := order;
      order := order + [key];
      assert order[..|order| - 1] == seen;
      if w.name != name { continue; }
      if best.None? {
        best := Some(w);
      } else {
        var c := CompareVersions(w.version, best.value.version);
        if c > 0 { best := Some(w); }
      }
    }
    assert IsOrder(defs, order);
    if best.Some? && NoCycle(Parts(defs, name)) { BestIsHighest(defs, name, order); }
  }

  // ---- the highest -------------------------------------------------------

  /** No definition of the name has a higher version. */
  ghost predicate Highest(defs: Definitions, name: string, w: WorkflowDef) {
    Offers(defs, name, w) && forall x :: Offers(defs, name, x) ==> Compare(x.version, w.version) <= 0
  }

  /** The components of the versions of the name, and the padding. */
  function Parts(defs: Definitions, name: string): set<string> {
    {"0"} + set k, i: nat | k in defs && defs[k].name == name && i < |Split(defs[k].version)|
              :: Split(defs[k].version)[i]
  }

  lemma OfferedOver(defs: Definitions, name: string, k: string)
    requires k in defs && defs[k].name == name
    ensures Over(Parts(defs, name), defs[k].version)
  {
  }

  lemma {:induction false} BestIsBest(defs: Definitions, name: string, order: seq<string>, k: string)
    requires NoCycle(Parts(defs, name)) && (forall j :: j in order ==> j in defs) && k in order && defs[k].name == name
    ensures var r := Best(defs, name, order);
            r.Some? && Compare(defs[k].version, r.value.version) <= 0
    decreases |order|
  {
    hide NoCycle, Parts, Over, Compare;
    var init, last := order[..|order| - 1], order[|order| - 1];
    assert order == init + [last];
    var w, b, r := defs[last], Best(defs, name, init), Best(defs, name, order);
    assert "0" in Parts(defs, name) by { Padding(defs, name); }
    Antisymmetric(w.version, w.version);
    if k in init {
      BestIsBest(defs, name, init, k);
      if w.name == name && Beats(w, b) {
        var j :| j in init && defs[j] == b.value && b.value.name == name;
        OfferedOver(defs, name, k);
        OfferedOver(defs, name, j);
        OfferedOver(defs, name, last);
        Antisymmetric(w.version, b.value.version);
        Transitive(Parts(defs, name), defs[k].version, b.value.version, w.version);
      }
    }
  }

  lemma Padding(defs: Definitions, name: string)
    ensures "0" in Parts(defs, name)
  {
  }

  /** Unless the components of its versions have a cycle, every order of the map gives a highest definition. */
  lemma BestIsHighest(defs: Definitions, name: string, order: seq<string>)
    requires NoCycle(Parts(defs, name)) && IsOrder(defs, order) && Best(defs, name, order).Some?
    ensures Highest(defs, name, Best(defs, name, order).value)
  {
    var w := Best(defs, name, order).value;
    var j :| j in order && defs[j] == w && w.name == name;
    forall x | Offers(defs, name, x) ensures Compare(x.version, w.version) <= 0 {
      var k :| k in defs && defs[k] == x;
      BestIsBest(defs, name, order, k);
    }
  }

  /** Among numeric versions there is no cycle. */
  lemma NumericParts(defs: Definitions, name: string)
    requires forall k :: k in defs && defs[k].name == name ==> Numeric(defs[k].version)
    ensures NoCycle(Parts(defs, name))
  {
    ZeroIsNumeric();
  }

  ghost predicate NoTies(defs: Definitions, name: string) {
    forall x, y :: Offers(defs, name, x) && Offers(defs, name, y) && x != y ==> Compare(x.version, y.version) != 0
  }

  /** Without ties there is only one highest definition. */
  lemma HighestIsUnique(defs: Definitions, name: string, x: WorkflowDef, y: WorkflowDef)
    requires NoTies(defs, name) && Highest(defs, name, x) && Highest(defs, name, y)
    ensures x == y
  {
    Antisymmetric(x.version, y.version);
  }

  // ---- the order of the map ----------------------------------------------

  /** w has a higher version than every other definition of the name. */
  ghost predicate AboveAll(defs: Definitions, name: string, w: WorkflowDef) {
    forall x :: Offers(defs, name, x) && x != w ==> Compare(x.version, w.version) < 0
  }

  lemma {:induction false} AboveAllWins(defs: Definitions, name: string, w: WorkflowDef, order: seq<string>)
    requires (forall k :: k in order ==> k in defs) && w.name == name && AboveAll(defs, name, w)
    ensures (exists k :: k in order && defs[k] == w) ==> Best(defs, name, order) == Some(w)
    decreases |order|
  {
    hide Compare;
    if order != [] {
      var init, last := order[..|order| - 1], order[|order| - 1];
      assert order == init + [last];
      var v, b := defs[last], Best(defs, name, init);
      AboveAllWins(defs, name, w, init);
      Antisymmetric(w.version, w.version);
      if v == w && b.Some? {
        Antisymmetric(w.version, b.value.version);
      } else if v != w && v.name == name {
        assert Offers(defs, name, v);
      }
    }
  }

  predicate Distinct(ks: seq<string>) {
    forall i, j :: 0 <= i < j < |ks| ==> ks[i] != ks[j]
  }

  lemma Enumeration(s: set<string>) returns (ks: seq<string>)
    ensures Distinct(ks) && forall k :: k in ks <==> k in s
    decreases s
  {
    ks := [];
    if s != {} {
      var k :| k in s;
      var rest := Enumeration(s - {k});
      ks := rest + [k];
    }
  }

  lemma Concatenated(ks: seq<string>, js: seq<string>)
    requires Distinct(ks) && Distinct(js) && forall k :: k in ks ==> k !in js
    ensures Distinct(ks + js) && forall k :: k in ks + js <==> k in ks || k in js
  {
    var all := ks + js;
    forall i, j | 0 <= i < j < |all| ensures all[i] != all[j] {
      if i < |ks| <= j { assert ks[i] in ks && js[j - |ks|] in js; }
    }
  }

  predicate AllOf(defs: Definitions, v: WorkflowDef, ks: seq<string>) {
    forall k :: k in ks ==> k in defs && defs[k] == v
  }

  /** Keys that all hold v, visited in turn. */
  lemma {:induction false} BlockBest(defs: Definitions, name: string, order: seq<string>, v: WorkflowDef,
        ks: seq<string>)
    requires (forall k :: k in order ==> k in defs) && AllOf(defs, v, ks) && v.name == name
    ensures forall k :: k in order + ks ==> k in defs
    ensures Best(defs, name, order + ks) ==
              if ks != [] && Beats(v, Best(defs, name, order)) then Some(v) else Best(defs, name, order)
    decreases |ks|
  {
    hide Compare;
    if ks == [] {
      assert order + ks == order;
    } else {
      var init, last := ks[..|ks| - 1], ks[|ks| - 1];
      assert last in ks && forall k :: k in init ==> k in ks;
      BlockBest(defs, name, order, v, init);
      assert (order + ks)[..|order + ks| - 1] == order + init;
      Antisymmetric(v.version, v.version);
    }
  }

  /** What was left behind does not come back. */
  lemma {:induction false} NeverBack(defs: Definitions, name: string, order: seq<string>, w: WorkflowDef,
        ks: seq<string>)
    requires forall k :: k in order + ks ==> k in defs
    requires Best(defs, name, order) != Some(w) && forall k :: k in ks ==> defs[k] != w
    ensures Best(defs, name, order + ks) != Some(w)
    decreases |ks|
  {
    if ks == [] {
      assert order + ks == order;
    } else {
      var init, last := ks[..|ks| - 1], ks[|ks| - 1];
      assert last in ks && forall k :: k in init ==> k in ks;
      assert (order + ks)[..|order + ks| - 1] == order + init;
      NeverBack(defs, name, order, w, init);
    }
  }

  /** All keys that hold v. */
  lemma Holding(defs: Definitions, name: string, v: WorkflowDef) returns (ks: seq<string>)
    requires Offers(defs, name, v)
    ensures ks != [] && Distinct(ks) && AllOf(defs, v, ks) && forall k :: k in ks <==> k in defs && defs[k] == v
  {
    ks := Enumeration(set k | k in defs && defs[k] == v);
    var k :| k in defs && defs[k] == v;
    assert k in ks;
  }

  /** When some x is not below w, the order that visits x first, then w, then the rest does not give w. */
  lemma OthersFirst(defs: Definitions, name: string, w: WorkflowDef, x: WorkflowDef) returns (order: seq<string>)
    requires Offers(defs, name, w) && Offers(defs, name, x) && x != w && Compare(x.version, w.version) >= 0
    ensures IsOrder(defs, order) && Best(defs, name, order) != Some(w)
  {
    hide Compare, Best, Distinct, Offers;
    var xs := Holding(defs, name, x);
    var ws := Holding(defs, name, w);
    var rest := Enumeration(set k | k in defs && k !in xs && k !in ws);
    Concatenated(xs, ws);
    Concatenated(xs + ws, rest);
    order := xs + ws + rest;
    NamesOffered(defs, name, x, w);
    NothingFirst(defs, name, x, xs);
    BlockBest(defs, name, xs, w, ws);
    Antisymmetric(w.version, x.version);
    NeverBack(defs, name, xs + ws, w, rest);
  }

  lemma NamesOffered(defs: Definitions, name: string, x: WorkflowDef, w: WorkflowDef)
    requires Offers(defs, name, x) && Offers(defs, name, w)
    ensures x.name == name && w.name == name
  {
  }

  lemma NothingFirst(defs: Definitions, name: string, v: WorkflowDef, ks: seq<string>)
    requires AllOf(defs, v, ks) && v.name == name && ks != []
    ensures Best(defs, name, ks) == Some(v)
  {
    assert [] + ks == ks;
    BlockBest(defs, name, [], v, ks);
  }

  /** A definition is the latest in whatever order the map is visited exactly when it has a higher version than every
      other definition of the name. */
  lemma LatestIff(defs: Definitions, name: string, w: WorkflowDef)
    requires Offers(defs, name, w)
    ensures (forall order :: IsOrder(defs, order) ==> Best(defs, name, order) == Some(w)) <==> AboveAll(defs, name, w)
  {
    if AboveAll(defs, name, w) {
      forall order | IsOrder(defs, order) ensures Best(defs, name, order) == Some(w) {
        AboveAllWins(defs, name, w, order);
      }
    } else {
      var x :| Offers(defs, name, x) && x != w && Compare(x.version, w.version) >= 0;
      var order := OthersFirst(defs, name, w, x);
      assert IsOrder(defs, order) && Best(defs, name, order) != Some(w);
    }
  }

  ghost predicate MayBeLatest(defs: Definitions, name: string, w: WorkflowDef) {
    exists order :: IsOrder(defs, order) && Best(defs, name, order) == Some(w)
  }

  lemma OthersElsewhere(defs: Definitions, name: string, a: WorkflowDef, b: WorkflowDef, c: WorkflowDef,
        ks: seq<string>)
    requires Offers(defs, name, a) && Offers(defs, name, b) && Offers(defs, name, c)
    requires forall x :: Offers(defs, name, x) ==> x == a || x == b || x == c
    requires forall k :: k in ks ==> k in defs && defs[k] != a && defs[k] != b && defs[k] != c
    ensures Best(defs, name, ks) == None && a.name == name && b.name == name && c.name == name
  {
    forall k | k in ks ensures defs[k].name != name {
      if defs[k].name == name { assert Offers(defs, name, defs[k]); }
    }
  }

  /** The keys of a, then those of b, then those of c, after all others. */
  lemma ThreeBlocks(defs: Definitions, name: string, a: WorkflowDef, b: WorkflowDef, c: WorkflowDef)
    returns (ks: seq<string>, xs: seq<string>, ys: seq<string>, zs: seq<string>)
    requires Offers(defs, name, a) && Offers(defs, name, b) && Offers(defs, name, c) && a != b && b != c && a != c
    requires forall x :: Offers(defs, name, x) ==> x == a || x == b || x == c
    ensures IsOrder(defs, ks + xs + ys + zs) && forall k :: k in ks ==> k in defs
    ensures AllOf(defs, a, xs) && AllOf(defs, b, ys) && AllOf(defs, c, zs) && xs != [] && ys != [] && zs != []
    ensures Best(defs, name, ks) == None && a.name == name && b.name == name && c.name == name
  {
    hide Best, Distinct, Offers;
    xs := Holding(defs, name, a);
    ys := Holding(defs, name, b);
    zs := Holding(defs, name, c);
    ks := Enumeration(set k | k in defs && k !in xs && k !in ys && k !in zs);
    Concatenated(ks, xs);
    Concatenated(ks + xs, ys);
    Concatenated(ks + xs + ys, zs);
    OthersElsewhere(defs, name, a, b, c, ks);
  }

  /** Of three definitions c follows b and b follows a: c is the latest when they are visited in this order. */
  lemma LastWins(defs: Definitions, name: string, a: WorkflowDef, b: WorkflowDef, c: WorkflowDef)
    requires Offers(defs, name, a) && Offers(defs, name, b) && Offers(defs, name, c) && a != b && b != c && a != c
    requires forall x :: Offers(defs, name, x) ==> x == a || x == b || x == c
    requires Compare(a.version, b.version) < 0 && Compare(b.version, c.version) < 0
    ensures MayBeLatest(defs, name, c)
  {
    hide Compare, Best, IsOrder, AllOf, Offers;
    var ks, xs, ys, zs := ThreeBlocks(defs, name, a, b, c);
    Antisymmetric(a.version, b.version);
    Antisymmetric(b.version, c.version);
    BlockBest(defs, name, ks, a, xs);
    BlockBest(defs, name, ks + xs, b, ys);
    BlockBest(defs, name, ks + xs + ys, c, zs);
    assert Best(defs, name, ks + xs + ys + zs) == Some(c);
  }

  /** Among 2, 10 and 1a there is no highest: `Latest` returns each of them, in some order of the map. */
  lemma NoHighest(defs: Definitions, name: string, a: WorkflowDef, b: WorkflowDef, c: WorkflowDef, w: WorkflowDef)
    requires Offers(defs, name, a) && a.version == "2" && Offers(defs, name, b) && b.version == "10"
    requires Offers(defs, name, c) && c.version == "1a"
    requires forall x :: Offers(defs, name, x) ==> x == a || x == b || x == c
    ensures !Highest(defs, name, w)
    ensures MayBeLatest(defs, name, w) <==> Offers(defs, name, w)
  {
    NotTransitive();
    Antisymmetric("2", "10");
    Antisymmetric("10", "1a");
    Antisymmetric("1a", "2");
    hide Compare;
    LastWins(defs, name, c, a, b);
    LastWins(defs, name, a, b, c);
    LastWins(defs, name, b, c, a);
  }

  /** `Resolve`: no version, or "latest" in any case, is the latest one; any other is looked up. */
  method Resolve(defs: Definitions, name: string, version: string) returns (r: Option<WorkflowDef>)
    ensures version != "" && !EqualFold(version, "latest") ==>
              r == if WfKey(name, version) in defs then Some(defs[WfKey(name, version)]) else None
    ensures version == "" || EqualFold(version, "latest") ==>
              && (exists order :: IsOrder(defs, order) && r == Best(defs, name, order))
              && (r.Some? && NoCycle(Parts(defs, name)) ==> Highest(defs, name, r.value))
  {
    if version == "" || EqualFold(version, "latest") {
      r := Latest(defs, name);
      return;
    }
    if WfKey(name, version) in defs { return Some(defs[WfKey(name, version)]); }
    r := None;
  }
}
