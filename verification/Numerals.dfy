/** What the numbers in versions are (engine/dsl/loader.go:126-135): the decimal numerals of 64-bit integers, with
    leading zeros or a sign, are read as those integers, and nothing else is read as a number. So versions made of
    numbers are ordered by the first number that differs. */
module Numerals {
  import opened Model
  import opened Versions

  // ---- decimal numerals ------------------------------------------------------

  function Decimal(n: nat): string {
    if n < 10 then ["0123456789"[n]] else Decimal(n / 10) + ["0123456789"[n % 10]]
  }

  function Zeros(k: nat): string {
    if k == 0 then "" else Zeros(k - 1) + "0"
  }

  /** s is a numeral of v: a sign or none, zeros, and its decimal digits. */
  ghost predicate Numeral(s: string, v: int) {
    exists z: nat, n: nat ::
      || ((s == Zeros(z) + Decimal(n) || s == "+" + (Zeros(z) + Decimal(n))) && v == n)
      || (s == "-" + (Zeros(z) + Decimal(n)) && v == 0 - n)
  }

  predicate IsDigit(c: char) {
    '0' <= c <= '9'
  }

  lemma {:induction false} DigitsAppend(s: string, c: char, acc: nat)
    ensures DigitsFrom(s, acc).None? || !IsDigit(c) ==> DigitsFrom(s + [c], acc) == None
    ensures DigitsFrom(s, acc).Some? && IsDigit(c) ==>
              DigitsFrom(s + [c], acc) == Some(10 * DigitsFrom(s, acc).value + (c - '0') as nat)
  {
    if s == "" {
      assert s + [c] == [c] && [c][1..] == "";
    } else {
      assert (s + [c])[1..] == s[1..] + [c];
      if IsDigit(s[0]) { DigitsAppend(s[1..], c, 10 * acc + (s[0] - '0') as nat); }
    }
  }

  lemma DigitIs(d: nat)
    requires d < 10
    ensures IsDigit("0123456789"[d]) && ("0123456789"[d] - '0') as nat == d
  {
  }

  lemma {:induction false} DecimalParses(n: nat)
    ensures DigitsFrom(Decimal(n), 0) == Some(n) && Decimal(n) != "" && forall c :: c in Decimal(n) ==> IsDigit(c)
  {
    if n < 10 {
      DigitIs(n);
      DigitsAppend("", "0123456789"[n], 0);
      assert "" + ["0123456789"[n]] == Decimal(n);
    } else {
      DigitIs(n % 10);
      DecimalParses(n / 10);
      DigitsAppend(Decimal(n / 10), "0123456789"[n % 10], 0);
    }
  }

  lemma {:induction false} ZerosParse(k: nat, t: string)
    ensures DigitsFrom(Zeros(k) + t, 0) == DigitsFrom(t, 0)
    ensures k > 0 ==> (Zeros(k) + t)[0] == '0'
  {
    if k == 0 {
      assert Zeros(k) + t == t;
    } else {
      ZerosParse(k - 1, "0" + t);
      assert Zeros(k) + t == Zeros(k - 1) + ("0" + t);
      assert ("0" + t)[1..] == t;
    }
  }

  lemma DecimalNext(m: nat, c: char)
    requires IsDigit(c)
    ensures var d := (c - '0') as nat;
            d < 10 && Decimal(d) == [c] && (m > 0 ==> Decimal(10 * m + d) == Decimal(m) + [c])
  {
    var d := (c - '0') as nat;
    assert (10 * m + d) / 10 == m && (10 * m + d) % 10 == d;
  }

  lemma ZerosNext(z: nat)
    ensures Zeros(z) + Decimal(0) == Zeros(z + 1)
  {
  }

  /** Every text of digits is a numeral of the number it is read as. */
  lemma {:induction false} DigitsAreDecimal(s: string) returns (z: nat, n: nat)
    requires s != "" && DigitsFrom(s, 0).Some?
    ensures DigitsFrom(s, 0) == Some(n) && s == Zeros(z) + Decimal(n)
    decreases |s|
  {
    hide DigitsFrom, Decimal, Zeros;
    var init, c := s[..|s| - 1], s[|s| - 1];
    assert init + [c] == s;
    DigitsAppend(init, c, 0);
    var d := (c - '0') as nat;
    if init == "" {
      z, n := 0, d;
      OneDigit(c);
    } else {
      var z', m := DigitsAreDecimal(init);
      DecimalNext(m, c);
      ZerosNext(z');
      if m == 0 {
        z, n := z' + 1, d;
      } else {
        z, n := z', 10 * m + d;
        assert Zeros(z) + Decimal(n) == Zeros(z) + Decimal(m) + [c];
      }
    }
  }

  lemma OneDigit(c: char)
    ensures IsDigit(c) ==> [c] == Zeros(0) + Decimal((c - '0') as nat) && DigitsFrom([c], 0) == Some((c - '0') as nat)
    ensures !IsDigit(c) ==> DigitsFrom([c], 0) == None
  {
    assert [c][1..] == "";
    if IsDigit(c) { DecimalNext(0, c); }
  }

  /** A text that is not all digits is read as no number. */
  lemma {:induction false} DigitsIff(s: string, acc: nat)
    ensures DigitsFrom(s, acc).Some? <==> forall c :: c in s ==> IsDigit(c)
  {
    if s != "" {
      assert forall c :: c in s <==> c == s[0] || c in s[1..];
      if IsDigit(s[0]) { DigitsIff(s[1..], 10 * acc + (s[0] - '0') as nat); }
    }
  }

  // ---- Atoi ------------------------------------------------------------------

  /** Exactly the numerals of 64-bit integers are read, as those integers. */
  lemma AtoiIff(s: string, v: int)
    ensures Atoi(s) == Some(v) <==> Numeral(s, v) && -9223372036854775808 <= v <= 9223372036854775807
  {
    if Atoi(s) == Some(v) { AtoiReads(s, v); }
    if z: nat, n: nat :| ((s == Zeros(z) + Decimal(n) || s == "+" + (Zeros(z) + Decimal(n))) && v == n)
                         || (s == "-" + (Zeros(z) + Decimal(n)) && v == 0 - n) {
      Reads(s, z, n, v);
    }
  }

  lemma Reads(s: string, z: nat, n: nat, v: int)
    requires ((s == Zeros(z) + Decimal(n) || s == "+" + (Zeros(z) + Decimal(n))) && v == n)
             || (s == "-" + (Zeros(z) + Decimal(n)) && v == 0 - n)
    ensures Atoi(s) == if -9223372036854775808 <= v <= 9223372036854775807 then Some(v) else None
  {
    var t := Zeros(z) + Decimal(n);
    ZerosParse(z, Decimal(n));
    DecimalParses(n);
    assert t != "" && IsDigit(t[0]);
    if s == "+" + t || s == "-" + t { assert s[1..] == t; }
  }

  lemma AtoiReads(s: string, v: int)
    requires Atoi(s) == Some(v)
    ensures Numeral(s, v) && -9223372036854775808 <= v <= 9223372036854775807
  {
    var signed := s[0] == '-' || s[0] == '+';
    var t := if signed then s[1..] else s;
    var z, n := DigitsAreDecimal(t);
    if signed { assert s == [s[0]] + t; }
  }

  /** What is no sign and digits is no number; neither is a number of more than 64 bits. */
  lemma NoNumber(s: string)
    ensures var signed := s != "" && (s[0] == '-' || s[0] == '+');
            var t := if signed then s[1..] else s;
            (t == "" || exists c :: c in t && !IsDigit(c)) ==> Atoi(s) == None
    ensures (forall v :: Numeral(s, v) ==> v < -9223372036854775808 || v > 9223372036854775807) ==> Atoi(s) == None
  {
    var t := if s != "" && (s[0] == '-' || s[0] == '+') then s[1..] else s;
    DigitsIff(t, 0);
    if Atoi(s).Some? { AtoiIff(s, Atoi(s).value); }
  }

  // ---- versions of numbers ---------------------------------------------------

  /** The numerals, dot by dot. */
  function Numbers(v: seq<nat>): (r: seq<string>)
    ensures |r| == |v| && forall i :: 0 <= i < |v| ==> r[i] == Decimal(v[i])
  {
    seq(|v|, i requires 0 <= i < |v| => Decimal(v[i]))
  }

  function Dotted(v: seq<nat>): string
    requires v != []
  {
    Join(Numbers(v))
  }

  function NumberAt(v: seq<nat>, i: nat): nat {
    if i < |v| then v[i] else 0
  }

  /** a and b agree before j, where a is smaller. */
  predicate LessAt(a: seq<nat>, b: seq<nat>, j: nat) {
    NumberAt(a, j) < NumberAt(b, j) && forall i: nat :: i < j ==> NumberAt(a, i) == NumberAt(b, i)
  }

  predicate Fit64(v: seq<nat>) {
    forall i :: 0 <= i < |v| ==> v[i] <= 9223372036854775807
  }

  /** Splitting undoes joining. */
  lemma {:induction false} JoinSplits(parts: seq<string>)
    requires parts != [] && forall k :: 0 <= k < |parts| ==> '.' !in parts[k]
    ensures Split(Join(parts)) == parts
  {
    if |parts| == 1 {
      NoDots(parts[0]);
    } else {
      JoinSplits(parts[1..]);
      SplitFirst(parts[0], Join(parts[1..]));
      assert parts == [parts[0]] + parts[1..];
    }
  }

  lemma {:induction false} SplitFirst(a: string, rest: string)
    requires '.' !in a
    ensures Split(a + "." + rest) == [a] + Split(rest)
  {
    var s := a + "." + rest;
    if a == "" {
      assert s[1..] == rest;
    } else {
      SplitFirst(a[1..], rest);
      assert s[1..] == a[1..] + "." + rest;
      assert [a[0]] + a[1..] == a;
    }
  }

  lemma DottedSplits(v: seq<nat>)
    requires v != []
    ensures Split(Dotted(v)) == Numbers(v)
  {
    forall k | 0 <= k < |v| ensures '.' !in Numbers(v)[k] { DecimalParses(v[k]); }
    JoinSplits(Numbers(v));
  }

  lemma NumbersRead(v: seq<nat>)
    requires Fit64(v)
    ensures AllNumeric(Numbers(v)) && forall i: nat :: Value(Numbers(v), i) == NumberAt(v, i)
  {
    hide Atoi, Decimal;
    forall i | 0 <= i < |v| ensures Atoi(Decimal(v[i])) == Some(v[i]) { DecimalReads(v[i]); }
  }

  lemma DecimalReads(n: nat)
    requires n <= 9223372036854775807
    ensures Atoi(Decimal(n)) == Some(n)
  {
    assert Zeros(0) + Decimal(n) == Decimal(n);
    Reads(Decimal(n), 0, n, n);
  }

  /** Versions of numbers compare as the first numbers that differ. */
  lemma NumbersCompare(a: seq<nat>, b: seq<nat>)
    requires a != [] && b != [] && Fit64(a) && Fit64(b)
    ensures Compare(Dotted(a), Dotted(b)) < 0 <==> exists j: nat :: LessAt(a, b, j)
    ensures Compare(Dotted(a), Dotted(b)) > 0 <==> exists j: nat :: LessAt(b, a, j)
    ensures Compare(Dotted(a), Dotted(b)) == 0 <==> forall i: nat :: NumberAt(a, i) == NumberAt(b, i)
  {
    hide Split, Atoi, Decimal, Dotted, AllNumeric;
    var x, y := Numbers(a), Numbers(b);
    DottedSplits(a);
    DottedSplits(b);
    NumbersRead(a);
    NumbersRead(b);
    SmallerMeans(a, b);
    SmallerMeans(b, a);
    CompareByValue(x, y, 0, Longer(x, y));
    if j: nat :| LessAt(a, b, j) { SmallerCompares(x, y, j); }
    if j: nat :| LessAt(b, a, j) { SmallerCompares(y, x, j); }
    CompareFromAntisymmetric(x, y, 0, Longer(x, y));
    if forall i: nat :: NumberAt(a, i) == NumberAt(b, i) { SameValuesCompare(x, y); }
  }

  lemma SmallerMeans(a: seq<nat>, b: seq<nat>)
    requires AllNumeric(Numbers(a)) && forall i: nat :: Value(Numbers(a), i) == NumberAt(a, i)
    requires AllNumeric(Numbers(b)) && forall i: nat :: Value(Numbers(b), i) == NumberAt(b, i)
    ensures forall j: nat :: SmallerAt(Numbers(a), Numbers(b), 0, j) <==> LessAt(a, b, j)
  {
  }

  /** When all versions of a name are versions of numbers, the highest definition is one whose numbers no other
      exceeds. */
  lemma HighestOfNumbers(defs: Definitions, name: string, w: WorkflowDef, numbers: string -> seq<nat>)
    requires Offers(defs, name, w)
    requires forall x :: Offers(defs, name, x) ==> Spells(numbers, x.version)
    ensures Highest(defs, name, w) <==>
              forall x, j: nat :: Offers(defs, name, x) ==> !LessAt(numbers(w.version), numbers(x.version), j)
  {
    hide Compare, Offers, LessAt;
    forall x | Offers(defs, name, x)
      ensures Compare(x.version, w.version) <= 0 <==>
                forall j: nat :: !LessAt(numbers(w.version), numbers(x.version), j)
    {
      NumbersCompare(numbers(x.version), numbers(w.version));
    }
  }

  /** The version is made of these numbers. */
  predicate Spells(numbers: string -> seq<nat>, v: string) {
    numbers(v) != [] && Fit64(numbers(v)) && v == Dotted(numbers(v))
  }
}
