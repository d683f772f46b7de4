/** Protobuf framing in the descriptor extractor (tools/extract-bgs-metadata.py). */
module Descriptors {
  import opened Common

  datatype Error = Truncated | TooLong | InvalidTag | Unexpected

  datatype Read = Value(value: nat, position: nat) | Failed(error: Error)

  // ---- varints ----

  /** The value read when `k` of the ten bytes allowed are already behind. */
  function ReadFrom(data: seq<Byte>, position: nat, k: nat): Read
    requires k <= 10
    decreases 10 - k
  {
    if k == 10 then Failed(TooLong)
    else if position >= |data| then Failed(Truncated)
    else if data[position] < 0x80 then Value(data[position], position + 1)
    else OnTopOf(data[position] - 0x80, 0x80, ReadFrom(data, position + 1, k + 1))
  }

  function OnTopOf(low: nat, scale: nat, high: Read): Read {
    if high.Value? then Value(low + scale * high.value, high.position) else high
  }

  lemma OnTopTwice(a: nat, m: nat, b: nat, n: nat, r: Read)
    ensures OnTopOf(a, m, OnTopOf(b, n, r)) == OnTopOf(a + b * m, m * n, r)
  {
  }

  /** The bits or-ed in lie above `value`, so or-ing them in is adding them. */
  method ReadVarint(data: seq<Byte>, start: nat) returns (r: Read)
    ensures r == ReadFrom(data, start, 0)
  {
    var position: nat, value: nat, scale: nat := start, 0, 1;
    for i := 0 to 10
      invariant value < scale
      invariant ReadFrom(data, start, 0) == OnTopOf(value, scale, ReadFrom(data, position, i))
    {
      if position >= |data| {
        return Failed(Truncated);
      }
      var byte := data[position];
      if byte < 0x80 {
        assert ReadFrom(data, position, i) == Value(byte, position + 1);
        return Value(value + scale * byte, position + 1);
      }
      OnTopTwice(value, scale, byte - 0x80, 0x80, ReadFrom(data, position + 1, i + 1));
      assert (byte - 0x80) * scale <= 0x7F * scale by { ScaledBy(byte - 0x80, 0x7F, scale); }
      position, value, scale := position + 1, value + (byte - 0x80) * scale, scale * 0x80;
    }
    return Failed(TooLong);
  }

  lemma ScaledBy(a: nat, b: nat, m: nat)
    requires a <= b
    ensures a * m <= b * m
  {
  }

  function Varint(value: nat): (r: seq<Byte>)
    ensures r != []
  {
    if value < 0x80 then [value] else [value % 0x80 + 0x80] + Varint(value / 0x80)
  }

  method EncodeVarint(value: int) returns (r: Option<seq<Byte>>)
    ensures r == if value < 0 then None else Some(Varint(value))
  {
    if value < 0 {
      return None;
    }
    var output: seq<Byte> := [];
    var rest: nat := value;
    while rest >= 0x80
      invariant Varint(value) == output + Varint(rest)
    {
      output := output + [rest % 0x80 + 0x80];
      rest := rest / 0x80;
    }
    return Some(output + [rest]);
  }

  const LIMIT := 0x40_0000_0000_0000_0000

  function Pow128(n: nat): nat { if n == 0 then 1 else 0x80 * Pow128(n - 1) }

  lemma {:induction false} VarintLength(value: nat, n: nat)
    requires n > 0
    ensures |Varint(value)| <= n <==> value < Pow128(n)
  {
    if n == 1 {
      assert Pow128(1) == 0x80;
    } else if value >= 0x80 {
      VarintLength(value / 0x80, n - 1);
    } else {
      Pow128AtLeast(n);
    }
  }

  lemma {:induction false} Pow128AtLeast(n: nat)
    requires n > 0
    ensures Pow128(n) >= 0x80
  {
    if n > 1 { Pow128AtLeast(n - 1); }
  }

  lemma {:induction false} ReadBack(before: seq<Byte>, value: nat, after: seq<Byte>, k: nat)
    requires k <= 10
    ensures ReadFrom(before + Varint(value) + after, |before|, k)
            == if k + |Varint(value)| <= 10 then Value(value, |before| + |Varint(value)|) else Failed(TooLong)
    decreases value
  {
    var data := before + Varint(value) + after;
    if k < 10 {
      assert data[|before|] == Varint(value)[0];
      if value >= 0x80 {
        ReadBack(before + [Varint(value)[0]], value / 0x80, after, k + 1);
        assert before + [Varint(value)[0]] + Varint(value / 0x80) + after == data;
      }
    }
  }

  /** Reading undoes writing, whatever comes after, exactly for values below 2^70. */
  lemma VarintRoundTrip(before: seq<Byte>, value: nat, after: seq<Byte>)
    ensures ReadFrom(before + Varint(value) + after, |before|, 0)
            == if value < LIMIT then Value(value, |before| + |Varint(value)|) else Failed(TooLong)
  {
    ReadBack(before, value, after, 0);
    VarintLength(value, 10);
    Limit();
  }

  lemma Limit()
    ensures Pow128(10) == LIMIT
  {
  }

  // ---- fields ----

  datatype Content = Number(value: nat) | Bytes(bytes: seq<Byte>)

  datatype Field = Field(number: nat, wireType: nat, content: Content, start: nat, end: nat)

  type Allowed = Option<set<(nat, nat)>>

  datatype Item = Yielded(field: Field) | Raised(error: Error)

  function Slice(data: seq<Byte>, from: nat, to: nat): seq<Byte>
    requires from <= to
  {
    if to <= |data| then data[from..to] else if from <= |data| then data[from..] else []
  }

  function Delimited(data: seq<Byte>, number: nat, wireType: nat, start: nat, position: nat, length: nat,
                     limit: nat): Item {
    if position + length > limit then Raised(Truncated)
    else Yielded(Field(number, wireType, Bytes(Slice(data, position, position + length)), start, position + length))
  }

  function FieldAt(data: seq<Byte>, start: nat, limit: nat, allowed: Allowed): (r: Item)
    ensures r.Yielded? ==> r.field.start == start < r.field.end
  {
    VarintsAdvance(data, start, 0);
    match ReadFrom(data, start, 0)
    case Failed(e) => Raised(e)
    case Value(tag, position) =>
      var number, wireType := tag / 8, tag % 8;
      if number == 0 || wireType !in {0, 1, 2, 5} then Raised(InvalidTag)
      else if allowed.Some? && (number, wireType) !in allowed.value then Raised(Unexpected)
      else if wireType == 1 then Delimited(data, number, wireType, start, position, 8, limit)
      else if wireType == 5 then Delimited(data, number, wireType, start, position, 4, limit)
      else
        VarintsAdvance(data, position, 0);
        match ReadFrom(data, position, 0)
        case Failed(e) => Raised(e)
        case Value(value, after) =>
          if wireType == 0 then Yielded(Field(number, wireType, Number(value), start, after))
          else Delimited(data, number, wireType, start, after, value, limit)
  }

  lemma {:induction false} VarintsAdvance(data: seq<Byte>, position: nat, k: nat)
    requires k <= 10
    ensures
      var r := ReadFrom(data, position, k);
      r.Value? ==> position < r.position <= |data|
    decreases 10 - k
  {
    if k < 10 { VarintsAdvance(data, position + 1, k + 1); }
  }

  /** What the generator yields, and the exception it ends with, if any. */
  datatype Parsed = Parsed(fields: seq<Field>, raised: Option<Error>)

  function Fields(data: seq<Byte>, position: nat, limit: nat, allowed: Allowed): Parsed
    decreases limit - position
  {
    if position >= limit then Parsed([], None)
    else
      match FieldAt(data, position, limit, allowed)
      case Raised(e) => Parsed([], Some(e))
      case Yielded(f) =>
        Prefixed([f], Fields(data, f.end, limit, allowed))
  }

  /** One round of the generator's loop. */
  method ReadField(data: seq<Byte>, start: nat, limit: nat, allowed: Allowed) returns (r: Item)
    ensures r == FieldAt(data, start, limit, allowed)
  {
    hide ReadFrom;
    var tag := ReadVarint(data, start);
    if tag.Failed? {
      return Raised(tag.error);
    }
    var position := tag.position;
    var number, wireType := tag.value / 8, tag.value % 8;
    if number == 0 || wireType !in {0, 1, 2, 5} {
      return Raised(InvalidTag);
    }
    if allowed.Some? && (number, wireType) !in allowed.value {
      return Raised(Unexpected);
    }
    var content: Content;
    if wireType == 0 {
      var value := ReadVarint(data, position);
      if value.Failed? {
        return Raised(value.error);
      }
      content, position := Number(value.value), value.position;
    } else if wireType == 1 {
      if position + 8 > limit {
        return Raised(Truncated);
      }
      content, position := Bytes(Slice(data, position, position + 8)), position + 8;
    } else if wireType == 5 {
      if position + 4 > limit {
        return Raised(Truncated);
      }
      content, position := Bytes(Slice(data, position, position + 4)), position + 4;
    } else {
      var length := ReadVarint(data, position);
      if length.Failed? {
        return Raised(length.error);
      }
      position := length.position;
      if position + length.value > limit {
        return Raised(Truncated);
      }
      content, position := Bytes(Slice(data, position, position + length.value)), position + length.value;
    }
    return Yielded(Field(number, wireType, content, start, position));
  }

  function Prefixed(fields: seq<Field>, rest: Parsed): Parsed { Parsed(fields + rest.fields, rest.raised) }

  lemma PrefixTwice(a: seq<Field>, f: Field, rest: Parsed)
    ensures Prefixed(a, Prefixed([f], rest)) == Prefixed(a + [f], rest)
  {
  }

  method ParseFields(data: seq<Byte>, start: nat, end: Option<nat>, allowed: Allowed) returns (r: Parsed)
    ensures r == Fields(data, start, if end.Some? then end.value else |data|, allowed)
  {
    hide FieldAt, Prefixed;
    var limit := if end.Some? then end.value else |data|;
    var position := start;
    var fields: seq<Field> := [];
    NothingBefore(Fields(data, start, limit, allowed));
    while position < limit
      invariant Fields(data, start, limit, allowed) == Prefixed(fields, Fields(data, position, limit, allowed))
    {
      var item := ReadField(data, position, limit, allowed);
      if item.Raised? {
        NothingAfter(fields, Some(item.error));
        return Parsed(fields, Some(item.error));
      }
      PrefixTwice(fields, item.field, Fields(data, item.field.end, limit, allowed));
      fields, position := fields + [item.field], item.field.end;
    }
    NothingAfter(fields, None);
    return Parsed(fields, None);
  }

  lemma NothingBefore(r: Parsed)
    ensures Prefixed([], r) == r
  {
  }

  lemma NothingAfter(fields: seq<Field>, raised: Option<Error>)
    ensures Prefixed(fields, Parsed([], raised)) == Parsed(fields, raised)
  {
  }

  /** Each field starts where the one before it ends. */
  ghost predicate Tiles(fields: seq<Field>, start: nat, end: nat) {
    if fields == [] then start == end
    else fields[0].start == start < fields[0].end && Tiles(fields[1..], fields[0].end, end)
  }

  /** A parse of the whole buffer that ends without an exception covers it without gaps or overlaps. */
  lemma {:induction false} FieldsTile(data: seq<Byte>, position: nat, allowed: Allowed)
    requires position <= |data|
    ensures
      var r := Fields(data, position, |data|, allowed);
      r.raised.None? ==> Tiles(r.fields, position, |data|)
    decreases |data| - position
  {
    if position < |data| {
      FieldEndsWithin(data, position, allowed);
      match FieldAt(data, position, |data|, allowed)
      case Raised(_) =>
      case Yielded(f) =>
        FieldsTile(data, f.end, allowed);
        var rest := Fields(data, f.end, |data|, allowed);
        assert ([f] + rest.fields)[1..] == rest.fields;
    }
  }

  lemma FieldEndsWithin(data: seq<Byte>, position: nat, allowed: Allowed)
    ensures
      var r := FieldAt(data, position, |data|, allowed);
      r.Yielded? ==> r.field.end <= |data|
  {
  }

  // ---- the descriptor set ----

  function Entry(descriptor: seq<Byte>): seq<Byte> { [0x0A] + Varint(|descriptor|) + descriptor }

  function DescriptorSet(descriptors: seq<seq<Byte>>): seq<Byte> {
    if descriptors == [] then [] else Entry(descriptors[0]) + DescriptorSet(descriptors[1..])
  }

  method WriteDescriptorSet(descriptors: seq<seq<Byte>>) returns (output: seq<Byte>)
    ensures output == DescriptorSet(descriptors)
  {
    output := [];
    for i := 0 to |descriptors|
      invariant DescriptorSet(descriptors) == output + DescriptorSet(descriptors[i..])
    {
      var length := EncodeVarint(|descriptors[i]|);
      assert descriptors[i..][1..] == descriptors[i + 1..];
      assert output + (Entry(descriptors[i]) + DescriptorSet(descriptors[i + 1..]))
          == output + Entry(descriptors[i]) + DescriptorSet(descriptors[i + 1..]);
      output := output + [0x0A];
      output := output + length.value;
      output := output + descriptors[i];
    }
  }

  /** One length-delimited field number 1 for each descriptor, in order. */
  function Entries(descriptors: seq<seq<Byte>>, start: nat): seq<Field> {
    if descriptors == [] then []
    else
      var end := start + |Entry(descriptors[0])|;
      [Field(1, 2, Bytes(descriptors[0]), start, end)] + Entries(descriptors[1..], end)
  }

  lemma EntryReadsBack(before: seq<Byte>, descriptor: seq<Byte>, after: seq<Byte>)
    ensures
      var data := before + Entry(descriptor) + after;
      FieldAt(data, |before|, |data|, None)
      == if |descriptor| < LIMIT then Yielded(Field(1, 2, Bytes(descriptor), |before|, |before| + |Entry(descriptor)|))
         else Raised(TooLong)
  {
    hide ReadFrom;
    var data := before + Entry(descriptor) + after;
    var head := before + [0x0A];
    var size := Varint(|descriptor|);
    assert data == before + Varint(0x0A) + (size + descriptor + after);
    VarintRoundTrip(before, 0x0A, size + descriptor + after);
    assert data == head + size + (descriptor + after);
    VarintRoundTrip(head, |descriptor|, descriptor + after);
    assert data[|head| + |size|..|head| + |size| + |descriptor|] == descriptor;
  }

  lemma {:induction false} SetParses(before: seq<Byte>, descriptors: seq<seq<Byte>>)
    ensures
      var data := before + DescriptorSet(descriptors);
      Fields(data, |before|, |data|, None) == Parsed(Entries(descriptors, |before|), None)
      <==> forall d :: d in descriptors ==> |d| < LIMIT
    decreases |descriptors|
  {
    hide FieldAt;
    if descriptors != [] {
      var d, rest := descriptors[0], descriptors[1..];
      var data := before + DescriptorSet(descriptors);
      EntryReadsBack(before, d, DescriptorSet(rest));
      assert data == before + Entry(d) + DescriptorSet(rest);
      SetParses(before + Entry(d), rest);
      assert forall x :: x in descriptors <==> x == d || x in rest;
      assert Entries(descriptors, |before|)[1..] == Entries(rest, |before| + |Entry(d)|);
    }
  }

  /** The written set parses to exactly the descriptors, in order, and the entries tile the file. */
  lemma DescriptorSetRoundTrip(descriptors: seq<seq<Byte>>)
    ensures
      var data := DescriptorSet(descriptors);
      Fields(data, 0, |data|, None) == Parsed(Entries(descriptors, 0), None) <==>
          forall d :: d in descriptors ==> |d| < LIMIT
    ensures (forall d :: d in descriptors ==> |d| < LIMIT)
        ==> Tiles(Entries(descriptors, 0), 0, |DescriptorSet(descriptors)|)
  {
    assert [] + DescriptorSet(descriptors) == DescriptorSet(descriptors);
    SetParses([], descriptors);
    FieldsTile(DescriptorSet(descriptors), 0, None);
  }
}
