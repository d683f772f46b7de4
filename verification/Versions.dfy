/** Version order and release selection in the updater (updater/src/appcast.rs). Numbers in a version are
    digit strings of any length, compared without converting them. */
module Versions {
  import opened Common

  datatype Ordering = Less | Equal | Greater

  datatype Part = Number(digits: string) | Text(letters: string)

  predicate IsDigit(c: char) { '0' <= c <= '9' }

  predicate IsLetter(c: char) { 'a' <= c <= 'z' || 'A' <= c <= 'Z' }

  predicate IsAlphanumeric(c: char) { IsDigit(c) || IsLetter(c) }

  function Flip(o: Ordering): Ordering {
    match o
    case Less => Greater
    case Equal => Equal
    case Greater => Less
  }

  // ---- splitting ----

  /** The first alphanumeric position from `i` on. */
  function SkipTo(s: string, i: nat): (j: nat)
    requires i <= |s|
    ensures i <= j <= |s|
    decreases |s| - i
  {
    if i < |s| && !IsAlphanumeric(s[i]) then SkipTo(s, i + 1) else i
  }

  /** Where the run of digits, or of letters, that contains position `i` ends. */
  function RunEnd(s: string, i: nat, numeric: bool): (j: nat)
    requires i <= |s|
    ensures i <= j <= |s|
    ensures forall k :: i <= k < j ==> IsDigit(s[k]) == numeric && IsAlphanumeric(s[k])
    ensures i < |s| && IsDigit(s[i]) == numeric && IsAlphanumeric(s[i]) ==> i < j
    decreases |s| - i
  {
    if i < |s| && IsDigit(s[i]) == numeric && IsAlphanumeric(s[i]) then RunEnd(s, i + 1, numeric) else i
  }

  function Parts(s: string, offset: nat): seq<Part>
    requires offset <= |s|
    decreases |s| - offset
  {
    var start := SkipTo(s, offset);
    if start == |s| then []
    else
      SkipFinds(s, offset);
      var numeric := IsDigit(s[start]);
      var end := RunEnd(s, start, numeric);
      [if numeric then Number(s[start..end]) else Text(s[start..end])] + Parts(s, end)
  }

  lemma {:induction false} SkipFinds(s: string, i: nat)
    requires i <= |s|
    ensures SkipTo(s, i) < |s| ==> IsAlphanumeric(s[SkipTo(s, i)])
    decreases |s| - i
  {
    if i < |s| && !IsAlphanumeric(s[i]) {
      SkipFinds(s, i + 1);
    }
  }

  class VersionParts {
    const value: string
    var offset: nat

    constructor (value: string)
      ensures this.value == value && offset == 0
    {
      this.value, offset := value, 0;
    }

    method Next() returns (part: Option<Part>)
      requires offset <= |value|
      modifies this`offset
      ensures offset <= |value| && offset >= old(offset)
      ensures part.None? ==> Parts(value, old(offset)) == [] == Parts(value, offset)
      ensures part.Some? ==> Parts(value, old(offset)) == [part.value] + Parts(value, offset)
      ensures part.Some? ==> offset > old(offset)
    {
      while offset < |value| && !IsAlphanumeric(value[offset])
        invariant old(offset) <= offset <= |value| && SkipTo(value, offset) == SkipTo(value, old(offset))
      {
        offset := offset + 1;
      }
      if offset == |value| {
        return None;
      }
      var start := offset;
      var numeric := IsDigit(value[start]);
      while offset < |value| && IsDigit(value[offset]) == numeric && IsAlphanumeric(value[offset])
        invariant start <= offset <= |value| && RunEnd(value, offset, numeric) == RunEnd(value, start, numeric)
      {
        offset := offset + 1;
      }
      var text := value[start..offset];
      return Some(if numeric then Number(text) else Text(text));
    }
  }

  // ---- comparing ----

  function TrimZeros(digits: string): string {
    if digits != [] && digits[0] == '0' then TrimZeros(digits[1..]) else digits
  }

  function CompareNat(a: int, b: int): Ordering {
    if a < b then Less else if a == b then Equal else Greater
  }

  /** Dictionary order of strings, a proper prefix first. */
  function Dictionary(a: string, b: string): Ordering {
    if a == [] && b == [] then Equal
    else if a == [] then Less
    else if b == [] then Greater
    else if a[0] != b[0] then CompareNat(a[0] as int, b[0] as int)
    else Dictionary(a[1..], b[1..])
  }

  function Lower(s: string): (r: string)
    ensures |r| == |s|
  {
    seq(|s|, i requires 0 <= i < |s| => if 'A' <= s[i] <= 'Z' then (s[i] as int - 'A' as int + 'a' as int) as char
        else s[i])
  }

  function CompareDigits(a: string, b: string): Ordering {
    var x, y := TrimZeros(a), TrimZeros(b);
    if |x| != |y| then CompareNat(|x|, |y|) else Dictionary(x, y)
  }

  function ComparePart(a: Part, b: Part): Ordering {
    match (a, b)
    case (Number(x), Number(y)) => CompareDigits(x, y)
    case (Number(_), Text(_)) => Greater
    case (Text(_), Number(_)) => Less
    case (Text(x), Text(y)) => Dictionary(Lower(x), Lower(y))
  }

  predicate IsZero(p: Part) {
    match p
    case Number(digits) => forall i :: 0 <= i < |digits| ==> digits[i] == '0'
    case Text(letters) => letters == []
  }

  function CompareParts(a: seq<Part>, b: seq<Part>): Ordering
    decreases |a| + |b|
  {
    if a == [] && b == [] then Equal
    else if b == [] then (if IsZero(a[0]) then CompareParts(a[1..], b) else Greater)
    else if a == [] then (if IsZero(b[0]) then CompareParts(a, b[1..]) else Less)
    else
      var o := ComparePart(a[0], b[0]);
      if o != Equal then o else CompareParts(a[1..], b[1..])
  }

  function Compare(a: string, b: string): Ordering {
    CompareParts(Parts(a, 0), Parts(b, 0))
  }

  method CompareVersions(a: string, b: string) returns (o: Ordering)
    ensures o == Compare(a, b)
  {
    hide Parts, ComparePart, IsZero;
    var left := new VersionParts(a);
    var right := new VersionParts(b);
    while true
      invariant left.value == a && right.value == b && left.offset <= |a| && right.offset <= |b|
      invariant CompareParts(Parts(a, left.offset), Parts(b, right.offset)) == Compare(a, b)
      decreases |a| - left.offset + |b| - right.offset
    {
      var x := left.Next();
      var y := right.Next();
      match (x, y) {
        case (None, None) => return Equal;
        case (Some(part), None) =>
          if !IsZero(part) {
            return Greater;
          }
        case (None, Some(part)) =>
          if !IsZero(part) {
            return Less;
          }
        case (Some(p), Some(q)) =>
          var ordering := ComparePart(p, q);
          if ordering != Equal {
            return ordering;
          }
      }
    }
  }

  // ---- digit strings as numbers ----

  ghost predicate AllDigits(s: string) { forall i :: 0 <= i < |s| ==> IsDigit(s[i]) }

  ghost function Power(n: nat): nat { if n == 0 then 1 else 10 * Power(n - 1) }

  /** The number a digit string denotes, however long. */
  ghost function Value(digits: string): nat
    requires AllDigits(digits)
  {
    if digits == [] then 0 else Digit(digits[0]) * Power(|digits| - 1) + Value(digits[1..])
  }

  ghost function Digit(c: char): nat
    requires IsDigit(c)
  {
    c as int - '0' as int
  }

  lemma Scale(a: nat, b: nat, p: nat)
    requires a + 1 <= b
    ensures a * p + p <= b * p
  {
    assert (b - a - 1) * p >= 0;
    assert b * p == a * p + p + (b - a - 1) * p;
  }

  lemma {:induction false} ValueBounded(digits: string)
    requires AllDigits(digits)
    ensures Value(digits) < Power(|digits|)
  {
    if digits != [] {
      ValueBounded(digits[1..]);
      var p := Power(|digits| - 1);
      Scale(Digit(digits[0]), 10, p);
    }
  }

  lemma {:induction false} TrimKeepsValue(digits: string)
    requires AllDigits(digits)
    ensures var t := TrimZeros(digits); AllDigits(t) && Value(t) == Value(digits) && (t != [] ==> t[0] != '0')
    ensures TrimZeros(digits) == [] <==> IsZero(Number(digits))
  {
    if digits != [] && digits[0] == '0' {
      TrimKeepsValue(digits[1..]);
      assert forall i :: 1 <= i < |digits| ==> digits[i] == digits[1..][i - 1];
      assert Digit(digits[0]) * Power(|digits| - 1) == 0;
    }
  }

  lemma {:induction false} SameLengthOrder(a: string, b: string)
    requires AllDigits(a) && AllDigits(b) && |a| == |b|
    ensures Dictionary(a, b) == CompareNat(Value(a), Value(b))
  {
    if a != [] {
      var p := Power(|a| - 1);
      ValueBounded(a[1..]);
      ValueBounded(b[1..]);
      if a[0] == b[0] {
        SameLengthOrder(a[1..], b[1..]);
      } else if a[0] < b[0] {
        Scale(Digit(a[0]), Digit(b[0]), p);
      } else {
        Scale(Digit(b[0]), Digit(a[0]), p);
      }
    }
  }

  lemma {:induction false} PowerGrows(m: nat, n: nat)
    requires m <= n
    ensures 1 <= Power(m) <= Power(n)
  {
    if m < n {
      PowerGrows(m, n - 1);
    } else if m > 0 {
      PowerGrows(m - 1, m - 1);
    }
  }

  lemma LongerIsGreater(a: string, b: string)
    requires AllDigits(a) && AllDigits(b) && |a| < |b| && b[0] != '0'
    ensures Value(a) < Value(b)
  {
    ValueBounded(a);
    PowerGrows(|a|, |b| - 1);
    var p := Power(|b| - 1);
    Scale(0, Digit(b[0]), p);
  }

  /** Comparing digit strings compares the numbers they denote. */
  lemma DigitsCompareAsNumbers(a: string, b: string)
    requires AllDigits(a) && AllDigits(b)
    ensures CompareDigits(a, b) == CompareNat(Value(a), Value(b))
    ensures IsZero(Number(a)) <==> Value(a) == 0
  {
    TrimKeepsValue(a);
    TrimKeepsValue(b);
    var x, y := TrimZeros(a), TrimZeros(b);
    if |x| < |y| {
      LongerIsGreater(x, y);
    } else if |x| > |y| {
      LongerIsGreater(y, x);
    } else {
      SameLengthOrder(x, y);
    }
    if x != [] {
      LongerIsGreater([], x);
    }
  }
}
