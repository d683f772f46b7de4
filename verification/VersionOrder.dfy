/** What the version comparison means, when it is an order, and what release selection then guarantees. */
module VersionOrder {
  import opened Common
  import opened Versions

  /** Split parts are never empty, and number parts hold digits only. */
  ghost predicate WellFormed(parts: seq<Part>) {
    forall i :: 0 <= i < |parts| ==>
      match parts[i]
      case Number(digits) => digits != [] && AllDigits(digits)
      case Text(letters) => letters != []
  }

  lemma {:induction false} PartsWellFormed(s: string, offset: nat)
    requires offset <= |s|
    ensures WellFormed(Parts(s, offset))
    decreases |s| - offset
  {
    var start := SkipTo(s, offset);
    if start != |s| {
      SkipFinds(s, offset);
      PartsWellFormed(s, RunEnd(s, start, IsDigit(s[start])));
    }
  }

  // ---- swapping the arguments ----

  lemma {:induction false} DictionaryFlips(a: string, b: string)
    ensures Dictionary(b, a) == Flip(Dictionary(a, b))
  {
    if a != [] && b != [] && a[0] == b[0] {
      DictionaryFlips(a[1..], b[1..]);
    }
  }

  lemma PartFlips(a: Part, b: Part)
    ensures ComparePart(b, a) == Flip(ComparePart(a, b))
  {
    match (a, b)
    case (Number(x), Number(y)) => DictionaryFlips(TrimZeros(x), TrimZeros(y));
    case (Text(x), Text(y)) => DictionaryFlips(Lower(x), Lower(y));
    case _ =>
  }

  lemma {:induction false} PartsFlip(a: seq<Part>, b: seq<Part>)
    ensures CompareParts(b, a) == Flip(CompareParts(a, b))
    decreases |a| + |b|
  {
    hide ComparePart;
    if a != [] && b != [] {
      PartFlips(a[0], b[0]);
      PartsFlip(a[1..], b[1..]);
    } else if a != [] {
      PartsFlip(a[1..], b);
    } else if b != [] {
      PartsFlip(a, b[1..]);
    }
  }

  /** For all strings, swapping the arguments reverses the result. */
  lemma CompareFlips(a: string, b: string)
    ensures Compare(b, a) == Flip(Compare(a, b))
  {
    PartsFlip(Parts(a, 0), Parts(b, 0));
  }

  // ---- versions made of numbers ----

  ghost predicate Numeric(parts: seq<Part>) {
    forall i :: 0 <= i < |parts| ==> parts[i].Number? && AllDigits(parts[i].digits)
  }

  /** The `i`th component, absent components counting as zero. */
  ghost function At(parts: seq<Part>, i: nat): nat
    requires Numeric(parts)
  {
    if i < |parts| then Value(parts[i].digits) else 0
  }

  ghost predicate EqualUpTo(a: seq<Part>, b: seq<Part>, n: nat)
    requires Numeric(a) && Numeric(b)
  {
    forall j: nat :: j < n ==> At(a, j) == At(b, j)
  }

  /** At the first component where they differ, `a` has the smaller number. */
  ghost predicate Precedes(a: seq<Part>, b: seq<Part>)
    requires Numeric(a) && Numeric(b)
  {
    exists i: nat :: EqualUpTo(a, b, i) && At(a, i) < At(b, i)
  }

  function Tail(a: seq<Part>): seq<Part> { if a == [] then [] else a[1..] }

  lemma TailAt(a: seq<Part>)
    requires Numeric(a)
    ensures Numeric(Tail(a)) && forall i: nat :: At(Tail(a), i) == At(a, i + 1)
  {
  }

  /** One step of the comparison on numbers: compare the heads, absent ones being zero, then the tails. */
  lemma NumericStep(a: seq<Part>, b: seq<Part>)
    requires Numeric(a) && Numeric(b)
    ensures
      var o := CompareNat(At(a, 0), At(b, 0));
      CompareParts(a, b) == if o != Equal then o else CompareParts(Tail(a), Tail(b))
  {
    hide CompareDigits;
    if a != [] && b != [] {
      DigitsCompareAsNumbers(a[0].digits, b[0].digits);
    } else if a != [] {
      DigitsCompareAsNumbers(a[0].digits, a[0].digits);
    } else if b != [] {
      DigitsCompareAsNumbers(b[0].digits, b[0].digits);
    }
  }

  lemma PrecedesCons(a: seq<Part>, b: seq<Part>)
    requires Numeric(a) && Numeric(b)
    ensures Numeric(Tail(a)) && Numeric(Tail(b))
    ensures At(a, 0) < At(b, 0) ==> Precedes(a, b)
    ensures At(a, 0) == At(b, 0) && Precedes(Tail(a), Tail(b)) ==> Precedes(a, b)
  {
    TailAt(a);
    TailAt(b);
    if At(a, 0) < At(b, 0) {
      assert EqualUpTo(a, b, 0);
    } else if At(a, 0) == At(b, 0) && Precedes(Tail(a), Tail(b)) {
      var i: nat :| EqualUpTo(Tail(a), Tail(b), i) && At(Tail(a), i) < At(Tail(b), i);
      forall j: nat | j < i + 1 ensures At(a, j) == At(b, j) {
        if j > 0 {
          var k: nat := j - 1;
          assert At(Tail(a), k) == At(Tail(b), k);
        }
      }
      assert EqualUpTo(a, b, i + 1);
    }
  }

  lemma {:induction false} NumericOrder(a: seq<Part>, b: seq<Part>)
    requires Numeric(a) && Numeric(b)
    ensures CompareParts(a, b) == Less ==> Precedes(a, b)
    ensures CompareParts(a, b) == Greater ==> Precedes(b, a)
    ensures CompareParts(a, b) == Equal ==> forall i: nat :: At(a, i) == At(b, i)
    decreases |a| + |b|
  {
    hide CompareParts, Value, Precedes;
    if a == [] && b == [] {
      assert CompareParts(a, b) == Equal by { NothingIsEqual(); }
    } else {
      NumericStep(a, b);
      TailAt(a);
      TailAt(b);
      NumericOrder(Tail(a), Tail(b));
      PrecedesCons(a, b);
      PrecedesCons(b, a);
      if CompareParts(a, b) == Equal {
        forall i: nat ensures At(a, i) == At(b, i) {
          if i > 0 {
            var k: nat := i - 1;
            assert At(Tail(a), k) == At(Tail(b), k);
          }
        }
      }
    }
  }

  lemma NothingIsEqual()
    ensures CompareParts([], []) == Equal
  {
  }

  lemma PrecedesExcludes(a: seq<Part>, b: seq<Part>)
    requires Numeric(a) && Numeric(b) && Precedes(a, b)
    ensures !Precedes(b, a) && exists i: nat :: At(a, i) != At(b, i)
  {
  }

  /** On versions whose parts are all digits the comparison is the order of number lists padded with zeros. */
  lemma NumbersCompareComponentwise(a: string, b: string)
    requires Numeric(Parts(a, 0)) && Numeric(Parts(b, 0))
    ensures Compare(a, b) == Less <==> Precedes(Parts(a, 0), Parts(b, 0))
    ensures Compare(a, b) == Greater <==> Precedes(Parts(b, 0), Parts(a, 0))
    ensures Compare(a, b) == Equal <==> forall i: nat :: At(Parts(a, 0), i) == At(Parts(b, 0), i)
  {
    hide Parts, CompareParts, Precedes;
    var x, y := Parts(a, 0), Parts(b, 0);
    NumericOrder(x, y);
    if Precedes(x, y) { PrecedesExcludes(x, y); }
    if Precedes(y, x) { PrecedesExcludes(y, x); }
  }

  // ---- transitivity ----

  /** The result of chaining two comparisons neither of which is `Greater`. */
  function Chain(first: Ordering, second: Ordering): Ordering {
    if first == Less || second == Less then Less else Equal
  }

  lemma {:induction false} DictionaryChains(a: string, b: string, c: string)
    requires Dictionary(a, b) != Greater && Dictionary(b, c) != Greater
    ensures Dictionary(a, c) == Chain(Dictionary(a, b), Dictionary(b, c))
  {
    if a != [] && b != [] && c != [] && a[0] == b[0] && b[0] == c[0] {
      DictionaryChains(a[1..], b[1..], c[1..]);
    }
  }

  ghost predicate Proper(p: Part) { p.Number? ==> AllDigits(p.digits) }

  lemma PartChains(a: Part, b: Part, c: Part)
    requires Proper(a) && Proper(b) && Proper(c)
    requires ComparePart(a, b) != Greater && ComparePart(b, c) != Greater
    ensures ComparePart(a, c) == Chain(ComparePart(a, b), ComparePart(b, c))
  {
    hide CompareDigits, Dictionary, Value;
    if a.Number? && b.Number? && c.Number? {
      DigitsCompareAsNumbers(a.digits, b.digits);
      DigitsCompareAsNumbers(b.digits, c.digits);
      DigitsCompareAsNumbers(a.digits, c.digits);
    } else if a.Text? && b.Text? && c.Text? {
      DictionaryChains(Lower(a.letters), Lower(b.letters), Lower(c.letters));
    }
  }

  /** The `i`th part, an absent one counting as the number zero. */
  function PartAt(a: seq<Part>, i: nat): Part { if i < |a| then a[i] else Number("0") }

  function Head(a: seq<Part>): Part { PartAt(a, 0) }

  ghost predicate AllProper(a: seq<Part>) { forall i :: 0 <= i < |a| ==> Proper(a[i]) }

  /** The comparison with every absent part counted as the number zero. */
  function Padded(a: seq<Part>, b: seq<Part>): Ordering
    decreases |a| + |b|
  {
    if a == [] && b == [] then Equal
    else
      var o := ComparePart(Head(a), Head(b));
      if o != Equal then o else Padded(Tail(a), Tail(b))
  }

  /** Everything before place `n` is equal, absent parts counting as zero, and there a letter part faces nothing. */
  ghost predicate DanglesAt(a: seq<Part>, b: seq<Part>, n: nat) {
    && ((|a| <= n < |b| && b[n].Text?) || (|b| <= n < |a| && a[n].Text?))
    && forall i: nat :: i < n ==> ComparePart(PartAt(a, i), PartAt(b, i)) == Equal
  }

  /** The comparison gets as far as a letter part that faces nothing. */
  ghost predicate Dangling(a: seq<Part>, b: seq<Part>) { exists n: nat :: DanglesAt(a, b, n) }

  lemma PartAtTail(a: seq<Part>)
    ensures forall i: nat :: PartAt(Tail(a), i) == PartAt(a, i + 1)
  {
  }

  lemma DanglingStep(a: seq<Part>, b: seq<Part>)
    ensures Dangling(a, b)
            <==> || (a == [] && b != [] && b[0].Text?) || (b == [] && a != [] && a[0].Text?)
                 || (ComparePart(Head(a), Head(b)) == Equal && Dangling(Tail(a), Tail(b)))
  {
    hide ComparePart;
    PartAtTail(a);
    PartAtTail(b);
    if n: nat :| DanglesAt(a, b, n) {
      if n > 0 {
        var m: nat := n - 1;
        forall i: nat | i < m ensures ComparePart(PartAt(Tail(a), i), PartAt(Tail(b), i)) == Equal {
          assert ComparePart(PartAt(a, i + 1), PartAt(b, i + 1)) == Equal;
        }
        assert DanglesAt(Tail(a), Tail(b), m);
      }
    }
    if ComparePart(Head(a), Head(b)) == Equal && Dangling(Tail(a), Tail(b)) {
      var m: nat :| DanglesAt(Tail(a), Tail(b), m);
      forall i: nat | i < m + 1 ensures ComparePart(PartAt(a, i), PartAt(b, i)) == Equal {
        if i > 0 { assert ComparePart(PartAt(Tail(a), i - 1), PartAt(Tail(b), i - 1)) == Equal; }
      }
      assert DanglesAt(a, b, m + 1);
    }
    if (a == [] && b != [] && b[0].Text?) || (b == [] && a != [] && a[0].Text?) { assert DanglesAt(a, b, 0); }
  }

  lemma NothingDangles()
    ensures !Dangling([], [])
  {
  }

  lemma DanglingFlips(a: seq<Part>, b: seq<Part>)
    ensures Dangling(a, b) <==> Dangling(b, a)
  {
    hide ComparePart;
    forall i: nat ensures ComparePart(PartAt(b, i), PartAt(a, i)) == Flip(ComparePart(PartAt(a, i), PartAt(b, i))) {
      PartFlips(PartAt(a, i), PartAt(b, i));
    }
    if n: nat :| DanglesAt(a, b, n) { assert DanglesAt(b, a, n); }
    if n: nat :| DanglesAt(b, a, n) { assert DanglesAt(a, b, n); }
  }

  lemma ZeroPart(p: Part)
    requires p.Number? && AllDigits(p.digits)
    ensures AllDigits("0") && ComparePart(Number("0"), Number("0")) == Equal
    ensures ComparePart(Number("0"), p) == if IsZero(p) then Equal else Less
    ensures ComparePart(p, Number("0")) == if IsZero(p) then Equal else Greater
  {
    hide CompareDigits;
    assert AllDigits("0") && Value("0") == 0 by { assert Power(0) == 1; }
    DigitsCompareAsNumbers("0", "0");
    DigitsCompareAsNumbers("0", p.digits);
    DigitsCompareAsNumbers(p.digits, "0");
  }

  /** Exactly when the code's comparison is the padded one: when no letter part dangles. */
  lemma {:induction false} PaddedUnlessDangling(a: seq<Part>, b: seq<Part>)
    requires WellFormed(a) && WellFormed(b)
    ensures CompareParts(a, b) == Padded(a, b) <==> !Dangling(a, b)
    decreases |a| + |b|
  {
    hide ComparePart, Dangling, IsZero;
    if a == [] && b == [] {
      NothingDangles();
    } else {
      DanglingStep(a, b);
      if a == [] {
        if b[0].Number? { ZeroPart(b[0]); } else { LettersFaceZero(b[0]); }
        PaddedUnlessDangling(a, b[1..]);
      } else if b == [] {
        if a[0].Number? { ZeroPart(a[0]); } else { LettersFaceZero(a[0]); }
        PaddedUnlessDangling(a[1..], b);
      } else {
        PaddedUnlessDangling(a[1..], b[1..]);
      }
    }
  }

  lemma LettersFaceZero(p: Part)
    requires p.Text? && p.letters != []
    ensures ComparePart(Number("0"), p) == Greater && ComparePart(p, Number("0")) == Less && !IsZero(p)
  {
  }

  /** Counting absent parts as zero always gives an order. */
  lemma {:induction false} PaddedChains(a: seq<Part>, b: seq<Part>, c: seq<Part>)
    requires AllProper(a) && AllProper(b) && AllProper(c)
    requires Padded(a, b) != Greater && Padded(b, c) != Greater
    ensures Padded(a, c) == Chain(Padded(a, b), Padded(b, c))
    decreases |a| + |b| + |c|
  {
    hide ComparePart;
    ProperHead(a);
    ProperHead(b);
    ProperHead(c);
    if a == [] && b == [] && c == [] {
    } else {
      PaddedStep(a, b);
      PaddedStep(b, c);
      PaddedStep(a, c);
      PartChains(Head(a), Head(b), Head(c));
      if ComparePart(Head(a), Head(b)) == Equal && ComparePart(Head(b), Head(c)) == Equal {
        PaddedChains(Tail(a), Tail(b), Tail(c));
      }
    }
  }

  lemma PaddedStep(a: seq<Part>, b: seq<Part>)
    ensures
      var o := ComparePart(Head(a), Head(b));
      Padded(a, b) == if o != Equal then o else Padded(Tail(a), Tail(b))
  {
    hide ComparePart;
    assert ComparePart(Number("0"), Number("0")) == Equal by { ZeroPart(Number("0")) by { assert AllDigits("0"); } }
  }

  lemma ProperHead(a: seq<Part>)
    requires AllProper(a)
    ensures Proper(Head(a)) && AllProper(Tail(a))
  {
    assert AllDigits("0");
  }

  lemma WellFormedIsProper(s: string)
    ensures WellFormed(Parts(s, 0)) && AllProper(Parts(s, 0))
  {
    PartsWellFormed(s, 0);
  }

  ghost predicate DanglingVersions(a: string, b: string) { Dangling(Parts(a, 0), Parts(b, 0)) }

  /** Among versions of which no two dangle the comparison is transitive, strictly so when either step is strict. */
  lemma CompareChains(a: string, b: string, c: string)
    requires !DanglingVersions(a, b) && !DanglingVersions(b, c) && !DanglingVersions(a, c)
    requires Compare(a, b) != Greater && Compare(b, c) != Greater
    ensures Compare(a, c) == Chain(Compare(a, b), Compare(b, c))
  {
    hide Parts, CompareParts, Padded, Dangling;
    WellFormedIsProper(a);
    WellFormedIsProper(b);
    WellFormedIsProper(c);
    var x, y, z := Parts(a, 0), Parts(b, 0), Parts(c, 0);
    PaddedUnlessDangling(x, y);
    PaddedUnlessDangling(y, z);
    PaddedUnlessDangling(x, z);
    PaddedChains(x, y, z);
  }

  /** Neither version has a letter part in a place the other does not reach. */
  predicate Compatible(a: seq<Part>, b: seq<Part>) {
    && (forall i :: |a| <= i < |b| ==> b[i].Number?)
    && (forall i :: |b| <= i < |a| ==> a[i].Number?)
  }

  lemma CompatibleNeverDangles(a: seq<Part>, b: seq<Part>)
    requires Compatible(a, b)
    ensures !Dangling(a, b)
  {
  }

  /** Versions of numbers alone never dangle. */
  lemma NumericNeverDangles(a: string, b: string)
    requires Numeric(Parts(a, 0)) && Numeric(Parts(b, 0))
    ensures !DanglingVersions(a, b)
  {
    CompatibleNeverDangles(Parts(a, 0), Parts(b, 0));
  }

  /** A prerelease of a later version does not dangle: "1.2" and "1.3rc1" differ before the letters are reached. */
  lemma PrereleaseDoesNotDangle()
    ensures
      var a, b := [Number("1"), Number("2")], [Number("1"), Number("3"), Text("rc"), Number("1")];
      !Compatible(a, b) && !Dangling(a, b)
  {
    var a, b := [Number("1"), Number("2")], [Number("1"), Number("3"), Text("rc"), Number("1")];
    assert |a| <= 2 < |b| && b[2].Text?;
    assert ComparePart(PartAt(a, 1), PartAt(b, 1)) == Less;
  }

  // ---- why the condition is needed ----

  /** The version with `k` more zero components. */
  function WithZeros(s: string, k: nat): string { if k == 0 then s else WithZeros(s, k - 1) + ".0" }

  function Zeros(k: nat): seq<Part> { seq(k, _ => Number("0")) }

  lemma {:induction false} SkipDotZero(s: string, i: nat)
    requires i <= |s|
    ensures SkipTo(s + ".0", i) == if SkipTo(s, i) < |s| then SkipTo(s, i) else |s| + 1
    decreases |s| - i
  {
    if i < |s| {
      assert (s + ".0")[i] == s[i];
      if !IsAlphanumeric(s[i]) { SkipDotZero(s, i + 1); }
    } else {
      assert (s + ".0")[i] == '.' && (s + ".0")[i + 1] == '0';
      assert SkipTo(s + ".0", i + 1) == i + 1;
    }
  }

  lemma {:induction false} RunDotZero(s: string, i: nat, numeric: bool)
    requires i <= |s|
    ensures RunEnd(s + ".0", i, numeric) == RunEnd(s, i, numeric)
    decreases |s| - i
  {
    if i < |s| {
      assert (s + ".0")[i] == s[i];
      RunDotZero(s, i + 1, numeric);
    } else {
      assert (s + ".0")[i] == '.';
    }
  }

  lemma {:induction false} PartsDotZero(s: string, i: nat)
    requires i <= |s|
    ensures Parts(s + ".0", i) == Parts(s, i) + [Number("0")]
    decreases |s| - i
  {
    hide RunEnd, SkipTo;
    var t := s + ".0";
    var start := SkipTo(s, i);
    SkipDotZero(s, i);
    if start < |s| {
      SkipFinds(s, i);
      var numeric := IsDigit(s[start]);
      assert t[start] == s[start];
      RunDotZero(s, start, numeric);
      var end := RunEnd(s, start, numeric);
      assert t[start..end] == s[start..end];
      PartsDotZero(s, end);
      assert Parts(s, i) == [if numeric then Number(s[start..end]) else Text(s[start..end])] + Parts(s, end);
    } else {
      assert t[|s| + 1] == '0' && IsDigit('0');
      LastRun(s);
      assert t[|s| + 1..|t|] == "0";
      NoPartsLeft(t);
      NoPartsFrom(s, i);
    }
  }

  lemma LastRun(s: string)
    ensures RunEnd(s + ".0", |s| + 1, true) == |s| + 2
  {
    assert (s + ".0")[|s| + 1] == '0';
    assert RunEnd(s + ".0", |s| + 2, true) == |s| + 2;
  }

  lemma NoPartsLeft(t: string)
    ensures Parts(t, |t|) == []
  {
  }

  lemma NoPartsFrom(s: string, i: nat)
    requires i <= |s| && SkipTo(s, i) == |s|
    ensures Parts(s, i) == []
  {
  }

  lemma {:induction false} PartsWithZeros(s: string, k: nat)
    ensures Parts(WithZeros(s, k), 0) == Parts(s, 0) + Zeros(k)
  {
    hide Parts;
    if k > 0 {
      PartsWithZeros(s, k - 1);
      PartsDotZero(WithZeros(s, k - 1), 0);
      assert Zeros(k) == Zeros(k - 1) + [Number("0")];
    } else {
      assert Parts(s, 0) + [] == Parts(s, 0);
    }
  }

  lemma SelfEqual(p: Part)
    ensures ComparePart(p, p) == Equal
  {
    PartFlips(p, p);
  }

  /** Trailing zeros change nothing, and what exceeds a version by one of its own parts still does. */
  lemma {:induction false} ZerosAreEqual(a: seq<Part>, k: nat)
    ensures CompareParts(a, a + Zeros(k)) == Equal
    decreases |a| + k
  {
    hide ComparePart;
    var c := a + Zeros(k);
    if a != [] {
      SelfEqual(a[0]);
      ZerosAreEqual(a[1..], k);
      assert c[1..] == a[1..] + Zeros(k);
    } else if k > 0 {
      ZerosAreEqual([], k - 1);
      assert c == Zeros(k) && c[1..] == [] + Zeros(k - 1);
    }
  }

  lemma {:induction false} ZerosKeepGreater(a: seq<Part>, x: seq<Part>, k: nat)
    requires CompareParts(a, x) == Greater
    ensures CompareParts(a + Zeros(k), x) == Greater
    decreases |a| + |x|
  {
    hide ComparePart;
    NeverGreaterThanNothing(x);
    var c := a + Zeros(k);
    if a != [] {
      assert c[0] == a[0] && c[1..] == a[1..] + Zeros(k);
      if x == [] {
        if IsZero(a[0]) { ZerosKeepGreater(a[1..], x, k); }
      } else if ComparePart(a[0], x[0]) == Equal {
        ZerosKeepGreater(a[1..], x[1..], k);
      }
    }
  }

  lemma {:induction false} NeverGreaterThanNothing(x: seq<Part>)
    ensures CompareParts([], x) != Greater
    decreases |x|
  {
    if x != [] { NeverGreaterThanNothing(x[1..]); }
  }

  /** Where a letter part of `b` faces nothing of `a`: `b` exceeds `a`, but `a` with enough zeros, which equals
      `a`, exceeds `b`; and neither of these two comparisons dangles. */
  lemma {:induction false} ZerosReverse(a: seq<Part>, b: seq<Part>, n: nat)
    requires WellFormed(a) && WellFormed(b) && |a| <= n < |b| && DanglesAt(a, b, n)
    ensures CompareParts(a, b) == Less && CompareParts(a + Zeros(n + 1 - |a|), b) == Greater
    decreases n
  {
    hide ComparePart, IsZero;
    var c := a + Zeros(n + 1 - |a|);
    PartAtTail(a);
    PartAtTail(b);
    assert c[0] == Head(a) && c != [];
    if n == 0 {
      LettersFaceZero(b[0]);
    } else {
      assert ComparePart(PartAt(a, 0), PartAt(b, 0)) == Equal;
      var m: nat := n - 1;
      forall i: nat | i < m ensures ComparePart(PartAt(Tail(a), i), PartAt(Tail(b), i)) == Equal {
        assert ComparePart(PartAt(a, i + 1), PartAt(b, i + 1)) == Equal;
      }
      assert DanglesAt(Tail(a), Tail(b), m);
      ZerosReverse(Tail(a), Tail(b), m);
      assert c[1..] == Tail(a) + Zeros(m + 1 - |Tail(a)|);
      if a == [] {
        if b[0].Number? { ZeroPart(b[0]); } else { LettersFaceZero(b[0]); }
      }
    }
  }

  lemma ZerosNeverDangle(a: seq<Part>, b: seq<Part>, n: nat)
    requires |a| <= n < |b| && DanglesAt(a, b, n)
    ensures
      var c := a + Zeros(n + 1 - |a|);
      !Dangling(a, c) && !Dangling(c, b)
  {
    hide ComparePart;
    var c := a + Zeros(n + 1 - |a|);
    assert Compatible(a, c);
    CompatibleNeverDangles(a, c);
    assert PartAt(c, n) == Number("0") && |c| == n + 1;
    assert ComparePart(PartAt(c, n), PartAt(b, n)) == Greater by { ZeroAgainstText(b[n]); }
  }

  lemma ZeroAgainstText(p: Part)
    requires p.Text?
    ensures ComparePart(Number("0"), p) == Greater
  {
  }

  /** Comparing through `c` agrees with comparing directly, upwards and downwards. */
  ghost predicate Through(a: string, c: string, b: string) {
    && (Compare(a, c) != Greater && Compare(c, b) != Greater ==> Compare(a, b) == Chain(Compare(a, c), Compare(c, b)))
    && (Compare(a, c) != Less && Compare(c, b) != Less
        ==> Compare(a, b) == Flip(Chain(Flip(Compare(a, c)), Flip(Compare(c, b)))))
  }

  lemma NotDanglingGoesThrough(a: string, c: string, b: string)
    requires !DanglingVersions(a, c) && !DanglingVersions(c, b) && !DanglingVersions(a, b)
    ensures Through(a, c, b)
  {
    hide Compare, Dangling;
    if Compare(a, c) != Greater && Compare(c, b) != Greater { CompareChains(a, c, b); }
    CompareFlips(a, c);
    CompareFlips(c, b);
    CompareFlips(a, b);
    DanglingFlips(Parts(a, 0), Parts(c, 0));
    DanglingFlips(Parts(c, 0), Parts(b, 0));
    DanglingFlips(Parts(a, 0), Parts(b, 0));
    if Compare(a, c) != Less && Compare(c, b) != Less { CompareChains(b, c, a); }
  }

  /** A zero-padded third version that equals `low`, exceeds `high`, and yet `high` exceeds `low`. */
  lemma PaddedWitness(low: string, high: string, n: nat) returns (c: string)
    requires |Parts(low, 0)| <= n < |Parts(high, 0)| && DanglesAt(Parts(low, 0), Parts(high, 0), n)
    ensures c == WithZeros(low, n + 1 - |Parts(low, 0)|)
    ensures Compare(low, c) == Equal && Compare(c, high) == Greater && Compare(low, high) == Less
    ensures !DanglingVersions(low, c) && !DanglingVersions(c, high)
  {
    hide Parts, CompareParts, Dangling;
    var x, y := Parts(low, 0), Parts(high, 0);
    var k: nat := n + 1 - |x|;
    c := WithZeros(low, k);
    WellFormedIsProper(low);
    WellFormedIsProper(high);
    PartsWithZeros(low, k);
    ZerosAreEqual(x, k);
    ZerosReverse(x, y, n);
    ZerosNeverDangle(x, y, n);
  }

  /** The exact condition: two versions keep their order through every third one that dangles with neither if and
      only if they do not dangle themselves. */
  lemma OrderedIffNotDangling(a: string, b: string)
    ensures !DanglingVersions(a, b)
        <==> forall c :: !DanglingVersions(a, c) && !DanglingVersions(c, b) ==> Through(a, c, b)
  {
    hide Compare, Dangling, Through;
    if !DanglingVersions(a, b) {
      forall c | !DanglingVersions(a, c) && !DanglingVersions(c, b) ensures Through(a, c, b) {
        NotDanglingGoesThrough(a, c, b);
      }
    } else {
      var c := DanglingWitness(a, b);
    }
  }

  lemma DanglingWitness(a: string, b: string) returns (c: string)
    requires DanglingVersions(a, b)
    ensures !DanglingVersions(a, c) && !DanglingVersions(c, b) && !Through(a, c, b)
  {
    hide Compare, Parts;
    var x, y := Parts(a, 0), Parts(b, 0);
    var n: nat :| DanglesAt(x, y, n);
    if |x| <= n < |y| {
      c := PaddedWitness(a, b, n);
    } else {
      DanglesAtFlips(x, y, n);
      c := PaddedWitness(b, a, n);
      CompareFlips(b, c);
      CompareFlips(c, a);
      CompareFlips(b, a);
      DanglingFlips(y, Parts(c, 0));
      DanglingFlips(Parts(c, 0), x);
    }
  }

  lemma DanglesAtFlips(a: seq<Part>, b: seq<Part>, n: nat)
    requires DanglesAt(a, b, n)
    ensures DanglesAt(b, a, n)
  {
    hide ComparePart;
    forall i: nat | i < n ensures ComparePart(PartAt(b, i), PartAt(a, i)) == Equal {
      PartFlips(PartAt(a, i), PartAt(b, i));
    }
  }

  /** With a dangling pair it is not an order: "1" equals "1.0", which exceeds "1a", which exceeds "1". */
  lemma LettersBreakTheOrder()
    ensures Compare("1", "1.0") == Equal && Compare("1.0", "1a") == Greater && Compare("1a", "1") == Greater
    ensures DanglingVersions("1a", "1")
  {
    assert Parts("1", 0) == [Number("1")] by { PartsOfOne(); }
    assert Parts("1a", 0) == [Number("1"), Text("a")] by { PartsOfOneA(); }
    assert Parts("1.0", 0) == [Number("1"), Number("0")] by { PartsOfOneZero(); }
    assert CompareDigits("1", "1") == Equal;
    assert IsZero(Number("0")) && !IsZero(Text("a"));
    assert ComparePart(Number("0"), Text("a")) == Greater;
    assert CompareParts([Number("0")], [Text("a")]) == Greater;
    assert CompareParts([], []) == Equal && CompareParts([], [Number("0")]) == Equal
        && CompareParts([Text("a")], []) == Greater;
    assert DanglesAt([Number("1"), Text("a")], [Number("1")], 1);
    assert [Number("1"), Text("a")][1..] == [Text("a")] && [Number("1"), Number("0")][1..] == [Number("0")]
        && [Number("1")][1..] == [];
  }

  lemma PartsOfOne()
    ensures Parts("1", 0) == [Number("1")]
  {
    assert SkipTo("1", 0) == 0 && RunEnd("1", 0, true) == 1 && "1"[0..1] == "1";
    assert Parts("1", 1) == [];
  }

  lemma PartsOfOneA()
    ensures Parts("1a", 0) == [Number("1"), Text("a")]
  {
    assert SkipTo("1a", 0) == 0 && RunEnd("1a", 0, true) == 1 && "1a"[0..1] == "1";
    assert SkipTo("1a", 1) == 1 && RunEnd("1a", 1, false) == 2 && "1a"[1..2] == "a";
    assert Parts("1a", 2) == [];
    assert Parts("1a", 1) == [Text("a")];
  }

  lemma PartsOfOneZero()
    ensures Parts("1.0", 0) == [Number("1"), Number("0")]
  {
    assert SkipTo("1.0", 0) == 0 && RunEnd("1.0", 0, true) == 1 && "1.0"[0..1] == "1";
    assert SkipTo("1.0", 1) == 2 && RunEnd("1.0", 2, true) == 3 && "1.0"[2..3] == "0";
    assert Parts("1.0", 3) == [];
    assert Parts("1.0", 1) == [Number("0")];
  }

  // ---- selecting a release ----

  datatype Release = Release(build: string, minimumSystem: Option<string>)

  predicate Eligible(r: Release, current: string, system: Option<string>) {
    && Compare(r.build, current) == Greater
    && (r.minimumSystem.Some? && system.Some? ==> Compare(system.value, r.minimumSystem.value) != Less)
  }

  /** `latest_newer_than`: of the eligible releases a greatest one, the last among equals. */
  function LatestNewerThan(releases: seq<Release>, current: string, system: Option<string>): (r: Option<Release>) {
    if releases == [] then None
    else
      var last := releases[|releases| - 1];
      var best := LatestNewerThan(releases[..|releases| - 1], current, system);
      if !Eligible(last, current, system) then best
      else if best.Some? && Compare(best.value.build, last.build) == Greater then best
      else Some(last)
  }

  /** No two of the builds to choose from dangle. */
  ghost predicate ChoicesOrdered(releases: seq<Release>, current: string, system: Option<string>) {
    forall r, s :: r in releases && s in releases && Eligible(r, current, system) && Eligible(s, current, system) ==>
      !DanglingVersions(r.build, s.build)
  }

  /** Selection returns an eligible release whenever there is one, and when no two of the builds to choose from
      dangle no eligible release exceeds it. */
  lemma {:induction false} SelectionIsGreatest(releases: seq<Release>, current: string, system: Option<string>)
    ensures
      var best := LatestNewerThan(releases, current, system);
      && (best.None? <==> forall r :: r in releases ==> !Eligible(r, current, system))
      && (best.Some? ==> best.value in releases && Eligible(best.value, current, system))
      && (best.Some? && ChoicesOrdered(releases, current, system) ==>
            forall r :: r in releases && Eligible(r, current, system) ==> Compare(r.build, best.value.build) != Greater)
    decreases |releases|
  {
    hide Compare, DanglingVersions;
    if releases != [] {
      var n := |releases| - 1;
      var last, rest := releases[n], releases[..n];
      SelectionIsGreatest(rest, current, system);
      assert forall r :: r in releases <==> r == last || r in rest;
      var best := LatestNewerThan(releases, current, system);
      if best.Some? && ChoicesOrdered(releases, current, system) {
        assert ChoicesOrdered(rest, current, system);
        forall r | r in releases && Eligible(r, current, system) ensures Compare(r.build, best.value.build) != Greater {
          BestStep(releases, rest, last, r, best.value, current, system);
        }
      }
    }
  }

  lemma BestStep(releases: seq<Release>, rest: seq<Release>, last: Release, r: Release, best: Release, current: string,
                 system: Option<string>)
    requires forall x :: x in releases <==> x == last || x in rest
    requires ChoicesOrdered(releases, current, system) && r in releases && Eligible(r, current, system)
    requires releases != [] && rest == releases[..|releases| - 1] && last == releases[|releases| - 1]
    requires LatestNewerThan(releases, current, system) == Some(best) && best in releases
    requires
      var before := LatestNewerThan(rest, current, system);
      && (before.Some? ==>
          && before.value in rest && Eligible(before.value, current, system)
          && forall x :: x in rest && Eligible(x, current, system) ==> Compare(x.build, before.value.build) != Greater)
      && (before.None? ==> forall x :: x in rest ==> !Eligible(x, current, system))
    ensures Compare(r.build, best.build) != Greater
  {
    hide Compare, DanglingVersions, Eligible, ChoicesOrdered;
    var before := LatestNewerThan(rest, current, system);
    CompareFlips(last.build, last.build);
    if before.Some? {
      CompareFlips(before.value.build, last.build);
      if best == last && r in rest && Eligible(last, current, system)
          && Compare(before.value.build, last.build) != Greater {
        OrderedPair(releases, current, system, r, before.value);
        OrderedPair(releases, current, system, before.value, last);
        OrderedPair(releases, current, system, r, last);
        CompareChains(r.build, before.value.build, last.build);
      }
    }
  }

  lemma OrderedPair(releases: seq<Release>, current: string, system: Option<string>, r: Release, s: Release)
    requires ChoicesOrdered(releases, current, system)
    requires r in releases && s in releases && Eligible(r, current, system) && Eligible(s, current, system)
    ensures !DanglingVersions(r.build, s.build)
  {
  }

  /** Letters can hide a newer release: "1a" exceeds the "1" that is selected. */
  lemma SelectionCanBeExceeded()
    ensures
      var offered := [Release("1.0", None), Release("1a", None), Release("1", None)];
      var best := LatestNewerThan(offered, "0", None);
      best == Some(Release("1", None)) && Eligible(offered[1], "0", None)
          && Compare(offered[1].build, best.value.build) == Greater
  {
    LettersBreakTheOrder();
    CompareFlips("1", "1.0");
    NewerThanZero();
    hide Compare;
    var x, y, z := Release("1.0", None), Release("1a", None), Release("1", None);
    assert [x, y, z][..2] == [x, y] && [x, y][..1] == [x] && [x][..0] == [];
    assert LatestNewerThan([x], "0", None) == Some(x);
    assert LatestNewerThan([x, y], "0", None) == Some(x);
    assert LatestNewerThan([x, y, z], "0", None) == Some(z);
  }

  lemma NewerThanZero()
    ensures Compare("1.0", "0") == Greater && Compare("1a", "0") == Greater && Compare("1", "0") == Greater
  {
    PartsOfOne();
    PartsOfOneA();
    PartsOfOneZero();
    assert SkipTo("0", 0) == 0 && RunEnd("0", 0, true) == 1 && "0"[0..1] == "0";
    assert Parts("0", 1) == [];
    assert Parts("0", 0) == [Number("0")];
    hide Parts;
    assert CompareDigits("1", "0") == Greater;
  }

  /** No eligible release exceeds the one selected. */
  ghost predicate NeverExceeded(offered: seq<Release>, current: string) {
    var best := LatestNewerThan(offered, current, None);
    best.Some? ==> forall r :: r in offered && Eligible(r, current, None) ==>
        Compare(r.build, best.value.build) != Greater
  }

  /** Releases for every system, of two given builds and a third that dangles with neither. */
  ghost predicate OfferedWith(offered: seq<Release>, a: string, b: string, c: string) {
    && !DanglingVersions(a, c) && !DanglingVersions(c, b)
    && forall r :: r in offered ==> r.minimumSystem.None? && (r.build == a || r.build == b || r.build == c)
  }

  lemma NeverDanglesAlone(a: string)
    ensures !DanglingVersions(a, a)
  {
    CompatibleNeverDangles(Parts(a, 0), Parts(a, 0));
  }

  lemma OfferedIsOrdered(offered: seq<Release>, a: string, b: string, c: string, current: string)
    requires OfferedWith(offered, a, b, c) && !DanglingVersions(a, b)
    ensures NeverExceeded(offered, current)
  {
    hide Compare, Dangling, LatestNewerThan;
    NeverDanglesAlone(a);
    NeverDanglesAlone(b);
    NeverDanglesAlone(c);
    DanglingFlips(Parts(a, 0), Parts(b, 0));
    DanglingFlips(Parts(a, 0), Parts(c, 0));
    DanglingFlips(Parts(c, 0), Parts(b, 0));
    SelectionIsGreatest(offered, current, None);
  }

  /** Selecting among `c`, `high` and `low`, where `c` equals `low` and exceeds `high`, picks `low` in the end. */
  lemma PicksLow(low: string, high: string, c: string, current: string)
    requires Compare(low, current) == Greater && Compare(high, current) == Greater && Compare(c, current) == Greater
    requires Compare(low, c) == Equal && Compare(c, high) == Greater && Compare(low, high) == Less
    ensures !NeverExceeded([Release(c, None), Release(high, None), Release(low, None)], current)
  {
    CompareFlips(low, c);
    CompareFlips(low, high);
    hide Compare;
    var x, y, z := Release(c, None), Release(high, None), Release(low, None);
    var offered := [x, y, z];
    assert offered[..2] == [x, y] && [x, y][..1] == [x] && [x][..0] == [];
    assert LatestNewerThan([x], current, None) == Some(x);
    assert LatestNewerThan([x, y], current, None) == Some(x);
    assert LatestNewerThan(offered, current, None) == Some(z);
    assert y in offered && Eligible(y, current, None);
  }

  lemma ZerosStayEligible(a: string, k: nat, current: string)
    requires Compare(a, current) == Greater
    ensures Compare(WithZeros(a, k), current) == Greater
  {
    hide Parts, CompareParts;
    PartsWithZeros(a, k);
    ZerosKeepGreater(Parts(a, 0), Parts(current, 0), k);
  }

  /** The exact condition for selection: of two eligible builds, together with any third that dangles with neither,
      selection never picks one that another exceeds, if and only if the two do not dangle. */
  lemma SelectionIsSafeIff(a: string, b: string, current: string)
    requires Compare(a, current) == Greater && Compare(b, current) == Greater
    ensures !DanglingVersions(a, b)
        <==> forall offered, c :: OfferedWith(offered, a, b, c) ==> NeverExceeded(offered, current)
  {
    hide Compare, Dangling, NeverExceeded, OfferedWith;
    if !DanglingVersions(a, b) {
      forall offered, c | OfferedWith(offered, a, b, c) ensures NeverExceeded(offered, current) {
        OfferedIsOrdered(offered, a, b, c, current);
      }
    } else {
      var offered, c := ExceededOffer(a, b, current);
    }
  }

  lemma ExceededOffer(a: string, b: string, current: string) returns (offered: seq<Release>, c: string)
    requires Compare(a, current) == Greater && Compare(b, current) == Greater && DanglingVersions(a, b)
    ensures OfferedWith(offered, a, b, c) && !NeverExceeded(offered, current)
  {
    hide Compare, Parts, NeverExceeded;
    var x, y := Parts(a, 0), Parts(b, 0);
    var n: nat :| DanglesAt(x, y, n);
    if |x| <= n < |y| {
      c := PaddedWitness(a, b, n);
      ZerosStayEligible(a, n + 1 - |x|, current);
      PicksLow(a, b, c, current);
      offered := [Release(c, None), Release(b, None), Release(a, None)];
    } else {
      DanglesAtFlips(x, y, n);
      c := PaddedWitness(b, a, n);
      ZerosStayEligible(b, n + 1 - |y|, current);
      PicksLow(b, a, c, current);
      DanglingFlips(y, Parts(c, 0));
      DanglingFlips(Parts(c, 0), x);
      offered := [Release(c, None), Release(a, None), Release(b, None)];
    }
  }
}
