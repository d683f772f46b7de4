/** What reassembly yields when every segment is a piece of one true stream.

    Positions are offsets into the stream; the byte at position `p` has sequence number `isn + p` modulo
    2^32. The stream is shorter than 2^31, the window in which sequence comparison is meaningful. */
module ReassemblyTheorems {
  import opened Common
  import opened Reassembly

  function Pos(isn: Seq32, sequence: Seq32): Seq32 { WrappingSub(sequence, isn) }

  /** The payload is what the stream holds at that sequence number. */
  ghost predicate Piece(isn: Seq32, stream: seq<Byte>, sequence: Seq32, payload: seq<Byte>) {
    && Pos(isn, sequence) + |payload| <= |stream|
    && payload == stream[Pos(isn, sequence)..Pos(isn, sequence) + |payload|]
  }

  /** The bytes kept are a true slice beginning at `start`, and every buffered segment is a piece. */
  ghost predicate Tracks(d: Direction, isn: Seq32, stream: seq<Byte>) {
    && |stream| < HALF
    && d.start.Some?
    && d.data != []
    && Piece(isn, stream, d.start.value, d.data)
    && forall k :: k in d.pending ==> d.pending[k] != [] && Piece(isn, stream, k, d.pending[k])
  }

  ghost function Low(d: Direction, isn: Seq32): nat
    requires d.start.Some?
  {
    Pos(isn, d.start.value)
  }

  ghost function High(d: Direction, isn: Seq32): nat
    requires d.start.Some?
  {
    Pos(isn, d.start.value) + |d.data|
  }

  ghost predicate Spans(isn: Seq32, sequence: Seq32, payload: seq<Byte>, x: int) {
    Pos(isn, sequence) <= x < Pos(isn, sequence) + |payload|
  }

  /** Position `x` is held, either in the contiguous data or in a buffered segment. */
  ghost predicate Held(d: Direction, isn: Seq32, x: int)
    requires d.start.Some?
  {
    Low(d, isn) <= x < High(d, isn) || exists k :: k in d.pending && Spans(isn, k, d.pending[k], x)
  }

  /** Every buffered segment begins at or after the first byte kept. */
  ghost predicate Ahead(d: Direction, isn: Seq32)
    requires d.start.Some?
  {
    forall k :: k in d.pending ==> Pos(isn, k) >= Low(d, isn)
  }

  /** Every buffered segment begins strictly after the last byte kept: nothing is left to flush. */
  ghost predicate Gapped(d: Direction, isn: Seq32)
    requires d.start.Some?
  {
    forall k :: k in d.pending ==> Pos(isn, k) > High(d, isn)
  }

  /** Serial-number comparison agrees with the order of positions, across the 2^32 wrap. */
  lemma SerialOrder(isn: Seq32, a: Seq32, b: Seq32)
    requires Pos(isn, a) < HALF && Pos(isn, b) < HALF
    ensures WrappingSub(a, b) > HALF <==> Pos(isn, a) < Pos(isn, b)
    ensures WrappingSub(a, b) < HALF <==> Pos(isn, a) >= Pos(isn, b)
    ensures Pos(isn, a) >= Pos(isn, b) ==> WrappingSub(a, b) == Pos(isn, a) - Pos(isn, b)
    ensures a == b <==> Pos(isn, a) == Pos(isn, b)
  {
  }

  lemma EndPosition(d: Direction, isn: Seq32, stream: seq<Byte>)
    requires Tracks(d, isn, stream)
    ensures |d.data| < MODULUS
    ensures Pos(isn, WrappingAdd(d.start.value, |d.data|)) == High(d, isn) < HALF
  {
  }

  // ---- one segment ----

  /** Where a segment lies relative to the bytes kept decides what `add` does with it. */
  lemma PlaceBelow(d: Direction, isn: Seq32, stream: seq<Byte>, k: Seq32, p: seq<Byte>)
    requires Tracks(d, isn, stream) && p != [] && Piece(isn, stream, k, p)
    requires Pos(isn, k) < Low(d, isn) <= Pos(isn, k) + |p|
    ensures Place(d, k, p).MustFlush?
    ensures
      var e := Place(d, k, p).direction;
      Tracks(e, isn, stream) && Low(e, isn) == Pos(isn, k) && High(e, isn) == High(d, isn)
  {
    SerialOrder(isn, k, d.start.value);
    SerialOrder(isn, d.start.value, k);
    var prefix := WrappingSub(d.start.value, k);
    var comparable := Min(|p[prefix..]|, |d.data|);
    OverlapAgrees(stream, Pos(isn, k), Low(d, isn), p, d.data, comparable);
    assert p[prefix..][..comparable] == p[prefix..prefix + comparable];
    assert p[..prefix] == stream[Pos(isn, k)..Low(d, isn)];
    OverlapExtends(stream, Pos(isn, k), p[..prefix], Low(d, isn), d.data, 0);
  }

  lemma PlaceWithin(d: Direction, isn: Seq32, stream: seq<Byte>, k: Seq32, p: seq<Byte>)
    requires Tracks(d, isn, stream) && p != [] && Piece(isn, stream, k, p)
    requires Low(d, isn) <= Pos(isn, k) <= High(d, isn)
    ensures Place(d, k, p).MustFlush?
    ensures
      var e := Place(d, k, p).direction;
      && Tracks(e, isn, stream) && Low(e, isn) == Low(d, isn)
      && High(e, isn) == (if High(d, isn) >= Pos(isn, k) + |p| then High(d, isn) else Pos(isn, k) + |p|)
      && d.data <= e.data
  {
    hide Place, WrappingSub, WrappingAdd;
    EndPosition(d, isn, stream);
    SerialOrder(isn, k, d.start.value);
    SerialOrder(isn, k, WrappingAdd(d.start.value, |d.data|));
    Joined(stream, Low(d, isn), d.data, Pos(isn, k), p, Min(|p|, High(d, isn) - Pos(isn, k)));
    PlaceExtends(d, k, p);
  }

  lemma PlaceExtends(d: Direction, k: Seq32, p: seq<Byte>)
    requires d.start.Some? && |d.data| < MODULUS && WrappingSub(k, d.start.value) <= |d.data| < HALF
    requires
      var end := WrappingAdd(d.start.value, |d.data|);
      WrappingSub(k, end) > HALF || k == end
    requires
      var offset := WrappingSub(k, d.start.value);
      var shared := Min(|p|, |d.data| - offset);
      d.data[offset..offset + shared] == p[..shared]
    ensures
      var shared := Min(|p|, |d.data| - WrappingSub(k, d.start.value));
      Place(d, k, p) == MustFlush(d.(data := d.data + p[shared..]))
  {
  }

  /** Two slices of the stream that touch agree where they overlap, ... */
  lemma OverlapAgrees(stream: seq<Byte>, a: nat, b: nat, left: seq<Byte>, right: seq<Byte>, shared: nat)
    requires a <= b && a + |left| <= |stream| && b + |right| <= |stream|
    requires b + shared <= a + |left| && shared <= |right|
    requires left == stream[a..a + |left|] && right == stream[b..b + |right|]
    ensures left[b - a..b - a + shared] == right[..shared]
  {
    var x, y := left[b - a..b - a + shared], right[..shared];
    forall i | 0 <= i < shared ensures x[i] == y[i] {
      assert x[i] == left[b - a + i] == stream[b + i];
      assert y[i] == right[i] == stream[b + i];
    }
  }

  /** ... and what sticks out of the second extends the first. */
  lemma OverlapExtends(stream: seq<Byte>, a: nat, left: seq<Byte>, b: nat, right: seq<Byte>, shared: nat)
    requires a + |left| == b + shared && shared <= |right| && b + |right| <= |stream|
    requires left == stream[a..a + |left|] && right == stream[b..b + |right|]
    ensures left + right[shared..] == stream[a..b + |right|]
  {
  }

  lemma Joined(stream: seq<Byte>, a: nat, left: seq<Byte>, b: nat, right: seq<Byte>, shared: nat)
    requires a <= b <= a + |left| <= |stream| && b + |right| <= |stream|
    requires shared == Min(|right|, a + |left| - b)
    requires left == stream[a..a + |left|] && right == stream[b..b + |right|]
    ensures left[b - a..b - a + shared] == right[..shared]
    ensures
      var whole := left + right[shared..];
      && a + |whole| == (if a + |left| >= b + |right| then a + |left| else b + |right|)
      && whole == stream[a..a + |whole|]
  {
    OverlapAgrees(stream, a, b, left, right, shared);
    if shared < |right| {
      OverlapExtends(stream, a, left, b, right, shared);
    } else {
      assert left + right[shared..] == left;
    }
  }

  lemma PlaceApart(d: Direction, isn: Seq32, stream: seq<Byte>, k: Seq32, p: seq<Byte>)
    requires Tracks(d, isn, stream) && p != [] && Piece(isn, stream, k, p)
    requires Pos(isn, k) + |p| < Low(d, isn) || Pos(isn, k) > High(d, isn)
    ensures Place(d, k, p) == InsertPending(d, k, p)
    ensures WhollyBefore(d, k, p) <==> Pos(isn, k) + |p| < Low(d, isn)
  {
  }

  lemma CandidatesAreNotAhead(d: Direction, isn: Seq32, stream: seq<Byte>)
    requires Tracks(d, isn, stream)
    ensures |d.data| < MODULUS
    ensures forall k: Seq32 :: k in Candidates(d) <==> k in d.pending && Pos(isn, k) <= High(d, isn)
  {
  }

  // ---- flushing ----

  /** Whatever is buffered, flushing a tracked direction keeps it a true slice and never reports an error. */
  lemma {:induction false} FlushSound(d: Direction, isn: Seq32, stream: seq<Byte>)
    requires Tracks(d, isn, stream)
    ensures Flush(d).outcome.Done? || Flush(d).outcome.Spins?
    ensures Tracks(Flush(d).direction, isn, stream)
    decreases |d.pending|
  {
    hide Place;
    CandidatesAreNotAhead(d, isn, stream);
    if Candidates(d) != {} {
      var k: Seq32 := Least(Candidates(d));
      var p := d.pending[k];
      var rest := d.(pending := d.pending - {k});
      RemovalShrinks(d.pending, k);
      assert Tracks(rest, isn, stream);
      if Pos(isn, k) + |p| < Low(d, isn) {
        PlaceApart(rest, isn, stream, k, p);
      } else {
        if Pos(isn, k) < Low(d, isn) {
          PlaceBelow(rest, isn, stream, k, p);
        } else {
          PlaceWithin(rest, isn, stream, k, p);
        }
        NotBefore(rest, isn, k, p);
        FlushSound(Place(rest, k, p).direction, isn, stream);
      }
    }
  }

  lemma NotBefore(d: Direction, isn: Seq32, k: Seq32, p: seq<Byte>)
    requires d.start.Some? && Low(d, isn) < HALF && Pos(isn, k) < HALF && Pos(isn, k) + |p| >= Low(d, isn)
    ensures !WhollyBefore(d, k, p)
  {
  }

  /** `e` keeps everything `d` holds, with more of it contiguous, and still buffers what lies beyond its end. */
  ghost predicate Settles(d: Direction, e: Direction, isn: Seq32) {
    && d.start.Some? && e.start == d.start && d.data <= e.data
    && e.pending.Keys <= d.pending.Keys
    && (forall k :: k in d.pending && Pos(isn, k) > High(e, isn) ==> k in e.pending)
    && (forall k :: k in e.pending ==> e.pending[k] == d.pending[k])
    && (forall x :: Held(e, isn, x) <==> Held(d, isn, x))
  }

  lemma SettlesTransitive(a: Direction, b: Direction, c: Direction, isn: Seq32)
    requires Settles(a, b, isn) && Settles(b, c, isn)
    ensures Settles(a, c, isn)
  {
  }

  /** With nothing buffered before the start, the flush ends normally, moves only the end, loses nothing and
      leaves no buffered segment at or before the end. */
  lemma {:induction false} FlushComplete(d: Direction, isn: Seq32, stream: seq<Byte>)
    requires Tracks(d, isn, stream) && Ahead(d, isn)
    ensures Flush(d).outcome == Done(false)
    ensures
      var e := Flush(d).direction;
      Tracks(e, isn, stream) && Settles(d, e, isn) && Gapped(e, isn)
    decreases |d.pending|
  {
    hide Place, Settles, Held;
    CandidatesAreNotAhead(d, isn, stream);
    if Candidates(d) != {} {
      var k: Seq32 := Least(Candidates(d));
      RemovalShrinks(d.pending, k);
      var e := FlushTurn(d, isn, stream, k);
      FlushComplete(e, isn, stream);
      SettlesTransitive(d, e, Flush(e).direction, isn);
    } else {
      SettlesItself(d, isn);
      forall k | k in d.pending ensures Pos(isn, k) > High(d, isn) {
        assert k !in Candidates(d);
      }
    }
  }

  lemma SettlesItself(d: Direction, isn: Seq32)
    requires d.start.Some?
    ensures Settles(d, d, isn)
  {
  }

  lemma FlushTurn(d: Direction, isn: Seq32, stream: seq<Byte>, k: Seq32) returns (e: Direction)
    requires Tracks(d, isn, stream) && k in d.pending && Low(d, isn) <= Pos(isn, k) <= High(d, isn)
    ensures !WhollyBefore(d, k, d.pending[k])
    ensures Place(d.(pending := d.pending - {k}), k, d.pending[k]) == MustFlush(e)
    ensures Tracks(e, isn, stream) && Settles(d, e, isn) && e.pending == d.pending - {k} && e.start == d.start
  {
    hide Place, Held;
    var p := d.pending[k];
    var rest := d.(pending := d.pending - {k});
    assert Tracks(rest, isn, stream);
    NotBefore(d, isn, k, p);
    PlaceWithin(rest, isn, stream, k, p);
    e := Place(rest, k, p).direction;
    PlacedIsHeld(d, rest, e, isn, k, p);
  }

  lemma PlacedIsHeld(d: Direction, rest: Direction, e: Direction, isn: Seq32, k: Seq32, p: seq<Byte>)
    requires d.start.Some? && k in d.pending && d.pending[k] == p
    requires rest == d.(pending := d.pending - {k}) && e.start == d.start && e.pending == rest.pending
    requires Low(d, isn) <= Pos(isn, k) <= High(d, isn)
    requires High(e, isn) == (if High(d, isn) >= Pos(isn, k) + |p| then High(d, isn) else Pos(isn, k) + |p|)
    ensures forall x :: Held(e, isn, x) <==> Held(d, isn, x)
  {
    forall x | Held(e, isn, x) ensures Held(d, isn, x) {
      if Low(e, isn) <= x < High(e, isn) {
        assert Low(d, isn) <= x < High(d, isn) || Spans(isn, k, d.pending[k], x);
      } else {
        var j :| j in e.pending && Spans(isn, j, e.pending[j], x);
        assert j in d.pending && Spans(isn, j, d.pending[j], x);
      }
    }
    forall x | Held(d, isn, x) ensures Held(e, isn, x) {
      if !(Low(e, isn) <= x < High(e, isn)) {
        var j :| j in d.pending && Spans(isn, j, d.pending[j], x);
        assert j in e.pending && Spans(isn, j, e.pending[j], x);
      }
    }
  }

  // ---- one arrival ----

  /** A segment that does not begin before the start is kept whole. It is refused exactly when it is out of
      order and a different segment is already buffered under the same sequence number. */
  lemma AddAhead(d: Direction, isn: Seq32, stream: seq<Byte>, s: Segment)
    requires Tracks(d, isn, stream) && Gapped(d, isn) && s.payload != []
    requires Piece(isn, stream, s.sequence, s.payload) && Pos(isn, s.sequence) >= Low(d, isn)
    ensures
      var r := AddSegment(d, s.sequence, s.payload);
      if Pos(isn, s.sequence) > High(d, isn) && s.sequence in d.pending && d.pending[s.sequence] != s.payload
      then r == Step(Conflict, d)
      else r.outcome == Done(|r.direction.data| > |d.data|) && Absorbs(d, r.direction, isn, s)
           && Tracks(r.direction, isn, stream) && Gapped(r.direction, isn)
  {
    hide Place, Flush, Held;
    var k, p := s.sequence, s.payload;
    if Pos(isn, k) > High(d, isn) {
      PlaceApart(d, isn, stream, k, p);
      if !(k in d.pending && d.pending[k] != p) {
        BufferedIsHeld(d, isn, s);
      }
    } else {
      PlaceWithin(d, isn, stream, k, p);
      var e := Place(d, k, p).direction;
      ExtendedIsHeld(d, e, isn, s);
      FlushComplete(e, isn, stream);
      AbsorbsThenSettles(d, e, Flush(e).direction, isn, s);
    }
  }

  /** `e` holds what `d` held together with the segment `s`, and buffers whatever of it lies beyond its end. */
  ghost predicate Absorbs(d: Direction, e: Direction, isn: Seq32, s: Segment) {
    && d.start.Some? && e.start == d.start && d.data <= e.data
    && (forall k :: k in e.pending ==>
        || (k in d.pending && e.pending[k] == d.pending[k])
        || (k == s.sequence && e.pending[k] == s.payload))
    && (forall k :: k in d.pending && Pos(isn, k) > High(e, isn) ==> k in e.pending && e.pending[k] == d.pending[k])
    && (Pos(isn, s.sequence) > High(e, isn) ==> s.sequence in e.pending && e.pending[s.sequence] == s.payload)
    && (forall x :: Held(e, isn, x) <==> Held(d, isn, x) || Spans(isn, s.sequence, s.payload, x))
  }

  lemma BufferedIsHeld(d: Direction, isn: Seq32, s: Segment)
    requires d.start.Some? && (s.sequence in d.pending ==> d.pending[s.sequence] == s.payload)
    ensures Absorbs(d, d.(pending := d.pending[s.sequence := s.payload]), isn, s)
  {
    var e := d.(pending := d.pending[s.sequence := s.payload]);
    forall x ensures Held(e, isn, x) <==> Held(d, isn, x) || Spans(isn, s.sequence, s.payload, x) {
      if Spans(isn, s.sequence, s.payload, x) {
        assert s.sequence in e.pending && Spans(isn, s.sequence, e.pending[s.sequence], x);
      }
      forall j | j in d.pending && Spans(isn, j, d.pending[j], x) ensures Held(e, isn, x) {
        assert j in e.pending && Spans(isn, j, e.pending[j], x);
      }
    }
  }

  lemma ExtendedIsHeld(d: Direction, e: Direction, isn: Seq32, s: Segment)
    requires d.start.Some? && e.start == d.start && d.data <= e.data && e.pending == d.pending
    requires Low(d, isn) <= Pos(isn, s.sequence) <= High(d, isn)
    requires
      var end := Pos(isn, s.sequence) + |s.payload|;
      High(e, isn) == if High(d, isn) >= end then High(d, isn) else end
    ensures Absorbs(d, e, isn, s)
  {
  }

  lemma AbsorbsThenSettles(d: Direction, e: Direction, f: Direction, isn: Seq32, s: Segment)
    requires Absorbs(d, e, isn, s) && Settles(e, f, isn)
    ensures Absorbs(d, f, isn, s)
  {
  }

  // ---- whole runs ----

  /** Feeds arrivals one by one; the capture stops at the first error. */
  function Run(d: Direction, arrivals: seq<Segment>): Step
    decreases |arrivals|
  {
    if arrivals == [] then Step(Done(false), d)
    else
      var s := AddSegment(d, arrivals[0].sequence, arrivals[0].payload);
      if s.outcome.Done? then Run(s.direction, arrivals[1..]) else s
  }

  ghost predicate FromStream(isn: Seq32, stream: seq<Byte>, arrivals: seq<Segment>) {
    |stream| < HALF && forall s :: s in arrivals ==> s.payload != [] && Piece(isn, stream, s.sequence, s.payload)
  }

  ghost predicate Covered(isn: Seq32, arrivals: seq<Segment>, x: int) {
    exists s :: s in arrivals && Spans(isn, s.sequence, s.payload, x)
  }

  /** Soundness: in every order, with retransmissions, overlaps, gaps and segments that reach back before the
      start, the bytes kept are a true slice of the stream beginning at `start`. */
  lemma {:induction false} RunSound(d: Direction, isn: Seq32, stream: seq<Byte>, arrivals: seq<Segment>)
    requires FromStream(isn, stream, arrivals)
    requires d == EMPTY || Tracks(d, isn, stream)
    ensures Run(d, arrivals).outcome != TooLong
    ensures Run(d, arrivals).direction == EMPTY || Tracks(Run(d, arrivals).direction, isn, stream)
    decreases |arrivals|
  {
    if arrivals != [] {
      var s := arrivals[0];
      AddSound(d, isn, stream, s);
      var r := AddSegment(d, s.sequence, s.payload);
      if r.outcome.Done? {
        RunSound(r.direction, isn, stream, arrivals[1..]);
      }
    }
  }

  lemma AddSound(d: Direction, isn: Seq32, stream: seq<Byte>, s: Segment)
    requires |stream| < HALF && s.payload != [] && Piece(isn, stream, s.sequence, s.payload)
    requires d == EMPTY || Tracks(d, isn, stream)
    ensures
      var r := AddSegment(d, s.sequence, s.payload);
      r.outcome != TooLong && Tracks(r.direction, isn, stream)
  {
    hide Flush;
    if d == EMPTY {
      assert [] + s.payload == s.payload;
      FlushSound(Direction(Some(s.sequence), s.payload, map[]), isn, stream);
    } else if Pos(isn, s.sequence) + |s.payload| < Low(d, isn) || Pos(isn, s.sequence) > High(d, isn) {
      PlaceApart(d, isn, stream, s.sequence, s.payload);
    } else {
      hide Place;
      if Pos(isn, s.sequence) < Low(d, isn) {
        PlaceBelow(d, isn, stream, s.sequence, s.payload);
      } else {
        PlaceWithin(d, isn, stream, s.sequence, s.payload);
      }
      FlushSound(Place(d, s.sequence, s.payload).direction, isn, stream);
    }
  }

  lemma {:induction false} RunAhead(d: Direction, isn: Seq32, stream: seq<Byte>, arrivals: seq<Segment>)
    requires FromStream(isn, stream, arrivals) && Tracks(d, isn, stream) && Gapped(d, isn)
    requires forall s :: s in arrivals ==> Pos(isn, s.sequence) >= Low(d, isn)
    ensures
      var r := Run(d, arrivals);
      && (r.outcome.Done? || r.outcome.Conflict?)
      && Tracks(r.direction, isn, stream) && Gapped(r.direction, isn)
      && r.direction.start == d.start && d.data <= r.direction.data
      && (r.outcome.Done? ==>
            forall x :: Held(r.direction, isn, x) <==> Held(d, isn, x) || Covered(isn, arrivals, x))
    decreases |arrivals|
  {
    hide Held, AddSegment, Spans;
    if arrivals != [] {
      var s := arrivals[0];
      AddAhead(d, isn, stream, s);
      var r := AddSegment(d, s.sequence, s.payload);
      if r.outcome.Done? {
        RunAhead(r.direction, isn, stream, arrivals[1..]);
        CoveredCons(isn, arrivals);
      }
    }
  }

  lemma CoveredCons(isn: Seq32, arrivals: seq<Segment>)
    requires arrivals != []
    ensures forall x :: Covered(isn, arrivals, x)
                        <==> Spans(isn, arrivals[0].sequence, arrivals[0].payload, x) || Covered(isn, arrivals[1..], x)
  {
  }

  ghost predicate FirstIsLowest(isn: Seq32, arrivals: seq<Segment>) {
    arrivals != [] && forall s :: s in arrivals ==> Pos(isn, s.sequence) >= Pos(isn, arrivals[0].sequence)
  }

  /** `data` is the stream from the first segment up to the first position no segment covers. */
  ghost predicate MaximalPrefix(isn: Seq32, stream: seq<Byte>, arrivals: seq<Segment>, data: seq<Byte>)
    requires arrivals != []
  {
    var lo := Pos(isn, arrivals[0].sequence);
    && lo + |data| <= |stream|
    && data == stream[lo..lo + |data|]
    && (forall x :: lo <= x < lo + |data| ==> Covered(isn, arrivals, x))
    && !Covered(isn, arrivals, lo + |data|)
  }

  lemma FirstArrival(isn: Seq32, stream: seq<Byte>, s: Segment)
    requires |stream| < HALF && s.payload != [] && Piece(isn, stream, s.sequence, s.payload)
    ensures AddSegment(EMPTY, s.sequence, s.payload) == Step(Done(true), Direction(Some(s.sequence), s.payload, map[]))
  {
  }

  // ---- which runs are refused ----

  /** Arrival `j` lies past a gap, and an earlier arrival had its sequence number and another payload. */
  ghost predicate ClashAt(isn: Seq32, a: seq<Segment>, j: int) {
    && 0 < j < |a|
    && (exists x :: Pos(isn, a[0].sequence) <= x < Pos(isn, a[j].sequence) && !Covered(isn, a[..j], x))
    && Contradicted(a[..j], a[j])
  }

  ghost predicate Contradicted(seen: seq<Segment>, s: Segment) {
    exists t :: t in seen && t.sequence == s.sequence && t.payload != s.payload
  }

  ghost predicate ClashesBy(isn: Seq32, a: seq<Segment>, n: int) { exists j :: 0 < j < n && ClashAt(isn, a, j) }

  ghost predicate Clashes(isn: Seq32, a: seq<Segment>) { ClashesBy(isn, a, |a|) }

  /** Where a run that was not refused stands: what is held is what was covered, and what is buffered is every
      segment seen that lies past the end. */
  ghost predicate Collected(d: Direction, isn: Seq32, stream: seq<Byte>, seen: seq<Segment>) {
    && seen != [] && Tracks(d, isn, stream) && Gapped(d, isn) && d.start == Some(seen[0].sequence)
    && (forall x :: Held(d, isn, x) <==> Covered(isn, seen, x))
    && (forall k :: k in d.pending ==> Segment(k, d.pending[k]) in seen)
    && (forall s :: s in seen && Pos(isn, s.sequence) > High(d, isn) ==>
        s.sequence in d.pending && d.pending[s.sequence] == s.payload)
  }

  lemma {:induction false} RunInTwoParts(d: Direction, a: seq<Segment>, b: seq<Segment>)
    ensures Run(d, a + b) == if Run(d, a).outcome.Done? then Run(Run(d, a).direction, b) else Run(d, a)
    decreases |a|
  {
    if a == [] {
      assert a + b == b;
    } else {
      var r := AddSegment(d, a[0].sequence, a[0].payload);
      assert (a + b)[0] == a[0] && (a + b)[1..] == a[1..] + b;
      RunInTwoParts(r.direction, a[1..], b);
    }
  }

  lemma RunOne(d: Direction, s: Segment)
    ensures
      var r := AddSegment(d, s.sequence, s.payload);
      Run(d, [s]) == if r.outcome.Done? then Step(Done(false), r.direction) else r
  {
    hide AddSegment;
    assert [s][1..] == [];
  }

  lemma FirstCollected(isn: Seq32, stream: seq<Byte>, s: Segment)
    requires |stream| < HALF && s.payload != [] && Piece(isn, stream, s.sequence, s.payload)
    ensures Run(EMPTY, [s]).outcome.Done? && Collected(Run(EMPTY, [s]).direction, isn, stream, [s])
  {
    hide AddSegment;
    FirstArrival(isn, stream, s);
    RunOne(EMPTY, s);
    var d := Run(EMPTY, [s]).direction;
    assert [s][0] == s && s in [s];
    forall x ensures Held(d, isn, x) <==> Covered(isn, [s], x) {
      assert Covered(isn, [s], x) <==> Spans(isn, s.sequence, s.payload, x);
    }
  }

  lemma CoveredAppend(isn: Seq32, seen: seq<Segment>, s: Segment)
    ensures forall x :: Covered(isn, seen + [s], x) <==> Covered(isn, seen, x) || Spans(isn, s.sequence, s.payload, x)
  {
    assert forall t :: t in seen + [s] <==> t in seen || t == s;
  }

  /** An arrival is out of order exactly when something below it is not covered yet. */
  lemma OutOfOrderIff(d: Direction, isn: Seq32, stream: seq<Byte>, seen: seq<Segment>, s: Segment)
    requires Collected(d, isn, stream, seen)
    ensures Pos(isn, s.sequence) > High(d, isn)
            <==> exists x :: Low(d, isn) <= x < Pos(isn, s.sequence) && !Covered(isn, seen, x)
  {
    hide Covered;
    assert !Held(d, isn, High(d, isn)) && !Covered(isn, seen, High(d, isn));
    forall x | Low(d, isn) <= x < High(d, isn) ensures Covered(isn, seen, x) { assert Held(d, isn, x); }
  }

  lemma NextCollected(d: Direction, isn: Seq32, stream: seq<Byte>, seen: seq<Segment>, s: Segment)
    requires Collected(d, isn, stream, seen) && s.payload != [] && Piece(isn, stream, s.sequence, s.payload)
    requires Pos(isn, s.sequence) >= Low(d, isn)
    ensures
      var r := AddSegment(d, s.sequence, s.payload);
      if Pos(isn, s.sequence) > High(d, isn) && Contradicted(seen, s) then r.outcome.Conflict?
      else r.outcome.Done? && Collected(r.direction, isn, stream, seen + [s])
  {
    hide AddSegment, Held, Piece, Spans;
    AddAhead(d, isn, stream, s);
    CoveredAppend(isn, seen, s);
    ContradictedIff(d, isn, stream, seen, s);
    assert forall t :: t in seen + [s] <==> t in seen || t == s;
    assert (seen + [s])[0] == seen[0];
  }

  lemma ContradictedIff(d: Direction, isn: Seq32, stream: seq<Byte>, seen: seq<Segment>, s: Segment)
    requires Collected(d, isn, stream, seen) && Pos(isn, s.sequence) >= Low(d, isn)
    ensures Pos(isn, s.sequence) > High(d, isn) ==>
              (Contradicted(seen, s) <==> s.sequence in d.pending && d.pending[s.sequence] != s.payload)
  {
    hide Held, Covered, Tracks;
    if s.sequence in d.pending { assert Segment(s.sequence, d.pending[s.sequence]) in seen; }
  }

  lemma ClashNext(isn: Seq32, a: seq<Segment>, n: nat)
    ensures ClashesBy(isn, a, n + 1) <==> ClashesBy(isn, a, n) || (n > 0 && ClashAt(isn, a, n))
  {
  }

  lemma {:induction false} RunUpTo(isn: Seq32, stream: seq<Byte>, a: seq<Segment>, n: nat)
    requires FromStream(isn, stream, a) && FirstIsLowest(isn, a) && 0 < n <= |a|
    ensures
      var r := Run(EMPTY, a[..n]);
      if ClashesBy(isn, a, n) then r.outcome.Conflict?
      else r.outcome.Done? && Collected(r.direction, isn, stream, a[..n])
  {
    hide AddSegment, Collected, Run, ClashesBy, Covered, Piece;
    if n == 1 {
      assert a[..1] == [a[0]];
      FirstCollected(isn, stream, a[0]);
      NoClashBefore(isn, a);
    } else {
      var seen, s := a[..n - 1], a[n - 1];
      assert a[..n] == seen + [s];
      RunUpTo(isn, stream, a, n - 1);
      ClashNext(isn, a, n - 1);
      RunInTwoParts(EMPTY, seen, [s]);
      if !ClashesBy(isn, a, n - 1) {
        var d := Run(EMPTY, seen).direction;
        CollectedStart(d, isn, stream, seen);
        OutOfOrderIff(d, isn, stream, seen, s);
        NextCollected(d, isn, stream, seen, s);
        RunOne(d, s);
      }
    }
  }

  lemma CollectedStart(d: Direction, isn: Seq32, stream: seq<Byte>, seen: seq<Segment>)
    requires Collected(d, isn, stream, seen)
    ensures seen != [] && d.start.Some? && Low(d, isn) == Pos(isn, seen[0].sequence)
  {
  }

  lemma NoClashBefore(isn: Seq32, a: seq<Segment>)
    ensures !ClashesBy(isn, a, 1)
  {
  }

  /** When the lowest segment comes first, a run is refused if and only if some arrival lies past a gap and
      contradicts an earlier arrival with its sequence number; in order, retransmissions of any length pass. */
  lemma RefusedIffClashes(isn: Seq32, stream: seq<Byte>, a: seq<Segment>)
    requires FromStream(isn, stream, a) && FirstIsLowest(isn, a)
    ensures Run(EMPTY, a).outcome.Conflict? <==> Clashes(isn, a)
    ensures Run(EMPTY, a).outcome.Done? <==> !Clashes(isn, a)
    ensures !Clashes(isn, a) ==> Collected(Run(EMPTY, a).direction, isn, stream, a)
  {
    hide AddSegment, Collected, Run, ClashesBy;
    assert a[..|a|] == a;
    RunUpTo(isn, stream, a, |a|);
  }

  /** A capture that does not clash does not clash at any earlier packet. */
  lemma PrefixDoesNotClash(isn: Seq32, a: seq<Segment>, n: nat)
    requires 0 < n <= |a| && !Clashes(isn, a)
    ensures !Clashes(isn, a[..n])
  {
    forall j | 0 < j < n ensures !ClashAt(isn, a[..n], j) {
      assert a[..n][..j] == a[..j];
      assert ClashAt(isn, a[..n], j) ==> ClashAt(isn, a, j);
    }
  }

  /** Segments sharing a sequence number are the same segment. */
  ghost predicate Agree(arrivals: seq<Segment>) {
    forall s, t :: s in arrivals && t in arrivals && s.sequence == t.sequence ==> s == t
  }

  lemma AgreeingNeverClashes(isn: Seq32, a: seq<Segment>)
    requires Agree(a)
    ensures !Clashes(isn, a)
  {
  }

  /** An ordinary longer retransmission contradicts nothing, although its payload differs. */
  lemma LongerRetransmission()
    ensures
      var a := [Segment(100, [1, 2]), Segment(100, [1, 2, 3])];
      !Agree(a) && !Clashes(100, a) && Run(EMPTY, a).outcome.Done? && Run(EMPTY, a).direction.data == [1, 2, 3]
  {
    hide Run;
    var s, t := Segment(100, [1, 2]), Segment(100, [1, 2, 3]);
    var a, stream := [s, t], [1, 2, 3];
    assert s in a && t in a && s != t;
    assert Pos(100, 100) == 0;
    assert s.payload == stream[0..2] && t.payload == stream[0..3];
    forall j | 0 < j < |a| ensures !ClashAt(100, a, j) {
      assert Pos(100, a[0].sequence) == Pos(100, a[j].sequence);
    }
    ReassemblyComplete(100, stream, a);
    var data := Run(EMPTY, a).direction.data;
    assert Spans(100, 100, [1, 2, 3], 2) && Covered(100, a, 2);
    assert |data| != 2 && |data| <= 3;
    assert Spans(100, 100, [1, 2, 3], 1) && Covered(100, a, 1) && Spans(100, 100, [1, 2, 3], 0) && Covered(100, a, 0);
    assert data == stream;
  }

  /** Completeness: when the first arrival is the lowest, a run that does not clash ends with exactly the maximal
      covered prefix, and a run that does is refused. */
  lemma ReassemblyComplete(isn: Seq32, stream: seq<Byte>, arrivals: seq<Segment>)
    requires FromStream(isn, stream, arrivals) && FirstIsLowest(isn, arrivals)
    ensures
      var r := Run(EMPTY, arrivals);
      if Clashes(isn, arrivals) then r.outcome.Conflict?
      else r.outcome.Done? && MaximalPrefix(isn, stream, arrivals, r.direction.data)
  {
    hide Run, Clashes, Covered, Piece;
    RefusedIffClashes(isn, stream, arrivals);
    if !Clashes(isn, arrivals) {
      var d := Run(EMPTY, arrivals).direction;
      CollectedIsMaximal(d, isn, stream, arrivals);
    }
  }

  lemma CollectedIsMaximal(d: Direction, isn: Seq32, stream: seq<Byte>, arrivals: seq<Segment>)
    requires Collected(d, isn, stream, arrivals)
    ensures MaximalPrefix(isn, stream, arrivals, d.data)
  {
    hide Covered;
    var hi := High(d, isn);
    assert !Held(d, isn, hi);
    forall x | Low(d, isn) <= x < hi ensures Covered(isn, arrivals, x) { assert Held(d, isn, x); }
  }

  /** Order independence: any two arrival orders of segments covering the same positions, each beginning with
      a lowest segment and neither refused, rebuild the same bytes. */
  lemma ReassemblyOrderIndependent(isn: Seq32, stream: seq<Byte>, a: seq<Segment>, b: seq<Segment>)
    requires FromStream(isn, stream, a) && FirstIsLowest(isn, a) && !Clashes(isn, a)
    requires FromStream(isn, stream, b) && FirstIsLowest(isn, b) && !Clashes(isn, b)
    requires forall x :: Covered(isn, a, x) <==> Covered(isn, b, x)
    ensures Run(EMPTY, a).outcome.Done? && Run(EMPTY, b).outcome.Done?
    ensures Run(EMPTY, a).direction.data == Run(EMPTY, b).direction.data
  {
    hide Run, Piece, Pos, Clashes;
    ReassemblyComplete(isn, stream, a);
    ReassemblyComplete(isn, stream, b);
    var la, lb := Pos(isn, a[0].sequence), Pos(isn, b[0].sequence);
    assert Spans(isn, a[0].sequence, a[0].payload, la) && Covered(isn, a, la);
    assert Spans(isn, b[0].sequence, b[0].payload, lb) && Covered(isn, b, lb);
    var sa :| sa in a && Spans(isn, sa.sequence, sa.payload, lb);
    var sb :| sb in b && Spans(isn, sb.sequence, sb.payload, la);
    assert la == lb;
    var x, y := Run(EMPTY, a).direction.data, Run(EMPTY, b).direction.data;
    assert |x| >= |y| by { assert !Covered(isn, b, la + |x|); }
    assert |y| >= |x| by { assert !Covered(isn, a, la + |y|); }
  }

  // ---- segments that reach back ----

  /** Every buffered segment lies past the end or wholly before the start; so it is in every reachable state. */
  ghost predicate Parted(d: Direction, isn: Seq32)
    requires d.start.Some?
  {
    forall k :: k in d.pending ==> Pos(isn, k) > High(d, isn) || Pos(isn, k) + |d.pending[k]| < Low(d, isn)
  }

  lemma DoneIsGapped(d: Direction, isn: Seq32, stream: seq<Byte>)
    requires Tracks(d, isn, stream) && Flush(d).outcome.Done?
    ensures Tracks(Flush(d).direction, isn, stream) && Gapped(Flush(d).direction, isn)
  {
    hide Place;
    FlushSound(d, isn, stream);
    FlushLeavesNoCandidate(d);
    var e := Flush(d).direction;
    CandidatesAreNotAhead(e, isn, stream);
    assert Candidates(e) == {} by { FlushedHasNone(e); }
    forall k | k in e.pending ensures Pos(isn, k) > High(e, isn) { assert k !in Candidates(e); }
  }

  lemma FlushedHasNone(e: Direction)
    requires e.start.Some? && |e.data| < MODULUS && Flush(e) == Step(Done(false), e)
    ensures Candidates(e) == {}
  {
    hide Place;
    if Candidates(e) != {} {
      var k: Seq32 := Least(Candidates(e));
      RemovalShrinks(e.pending, k);
      FlushShrinks(e);
    }
  }

  /** A flush that selects anything and ends normally has fewer segments buffered. */
  lemma FlushShrinks(d: Direction)
    requires d.start.Some? && |d.data| < MODULUS && Candidates(d) != {} && Flush(d).outcome.Done?
    ensures Flush(d).direction.pending != d.pending
  {
    hide Place;
    var k: Seq32 := Least(Candidates(d));
    var p := d.pending[k];
    var rest := d.(pending := d.pending - {k});
    RemovalShrinks(d.pending, k);
    if p != [] && !WhollyBefore(rest, k, p) {
      CandidateIsNotBuffered(d, k);
      assert Flush(d).direction.pending.Keys <= rest.pending.Keys;
    } else {
      assert Flush(d).direction.pending.Keys <= rest.pending.Keys;
    }
    assert k in d.pending && k !in rest.pending;
  }

  lemma AddParted(d: Direction, isn: Seq32, stream: seq<Byte>, s: Segment)
    requires |stream| < HALF && s.payload != [] && Piece(isn, stream, s.sequence, s.payload)
    requires d == EMPTY || (Tracks(d, isn, stream) && Parted(d, isn))
    ensures
      var r := AddSegment(d, s.sequence, s.payload);
      r.outcome.Done? ==> Tracks(r.direction, isn, stream) && Parted(r.direction, isn)
  {
    AddSound(d, isn, stream, s);
    hide Flush, Place;
    if d == EMPTY {
      FirstArrival(isn, stream, s);
    } else if Pos(isn, s.sequence) + |s.payload| < Low(d, isn) || Pos(isn, s.sequence) > High(d, isn) {
      PlaceApart(d, isn, stream, s.sequence, s.payload);
    } else {
      if Pos(isn, s.sequence) < Low(d, isn) {
        PlaceBelow(d, isn, stream, s.sequence, s.payload);
      } else {
        PlaceWithin(d, isn, stream, s.sequence, s.payload);
      }
      var e := Place(d, s.sequence, s.payload).direction;
      if Flush(e).outcome.Done? { DoneIsGapped(e, isn, stream); }
    }
  }

  /** The reachable states of a capture: tracked, and parted. */
  lemma {:induction false} RunParted(d: Direction, isn: Seq32, stream: seq<Byte>, arrivals: seq<Segment>)
    requires FromStream(isn, stream, arrivals) && (d == EMPTY || (Tracks(d, isn, stream) && Parted(d, isn)))
    ensures
      var r := Run(d, arrivals);
      r.outcome.Done? ==> r.direction == EMPTY || (Tracks(r.direction, isn, stream) && Parted(r.direction, isn))
    decreases |arrivals|
  {
    hide AddSegment, Parted;
    if arrivals != [] {
      var s := arrivals[0];
      AddParted(d, isn, stream, s);
      var r := AddSegment(d, s.sequence, s.payload);
      if r.outcome.Done? { RunParted(r.direction, isn, stream, arrivals[1..]); }
    }
  }

  /** Merging a buffered segment that the bytes kept reach from below or from within loses nothing. */
  lemma MergedIsHeld(d: Direction, e: Direction, isn: Seq32, k: Seq32)
    requires d.start.Some? && e.start.Some? && k in d.pending && e.pending == d.pending - {k}
    requires Pos(isn, k) <= High(d, isn) && Low(d, isn) <= Pos(isn, k) + |d.pending[k]| <= High(d, isn)
    requires Low(e, isn) == Min(Low(d, isn), Pos(isn, k)) && High(e, isn) == High(d, isn)
    ensures forall x :: Held(e, isn, x) <==> Held(d, isn, x)
  {
    forall x | Held(e, isn, x) ensures Held(d, isn, x) {
      if Low(e, isn) <= x < High(e, isn) {
        assert Low(d, isn) <= x < High(d, isn) || Spans(isn, k, d.pending[k], x);
      } else {
        var j :| j in e.pending && Spans(isn, j, e.pending[j], x);
        assert j in d.pending && Spans(isn, j, d.pending[j], x);
      }
    }
    forall x | Held(d, isn, x) ensures Held(e, isn, x) {
      if !(Low(e, isn) <= x < High(e, isn)) {
        var j :| j in d.pending && Spans(isn, j, d.pending[j], x);
        assert j in e.pending && Spans(isn, j, e.pending[j], x);
      }
    }
  }

  /** One turn of the flush on a segment it can merge. */
  lemma MergeTurn(d: Direction, isn: Seq32, stream: seq<Byte>, k: Seq32) returns (e: Direction)
    requires Tracks(d, isn, stream) && |d.data| < MODULUS && Candidates(d) != {} && k == Least(Candidates(d))
    requires Pos(isn, k) + |d.pending[k]| >= Low(d, isn)
    ensures k in d.pending && Pos(isn, k) <= High(d, isn)
    ensures e.start.Some? && Tracks(e, isn, stream) && Flush(d) == Flush(e) && e.pending == d.pending - {k}
    ensures Low(e, isn) == Min(Low(d, isn), Pos(isn, k))
    ensures High(e, isn) == if Pos(isn, k) < Low(d, isn)
        || High(d, isn) >= Pos(isn, k) + |d.pending[k]| then High(d, isn) else Pos(isn, k) + |d.pending[k]|
  {
    hide Place;
    CandidatesAreNotAhead(d, isn, stream);
    var p := d.pending[k];
    var rest := d.(pending := d.pending - {k});
    RemovalShrinks(d.pending, k);
    NotBefore(rest, isn, k, p);
    if Pos(isn, k) < Low(d, isn) {
      PlaceBelow(rest, isn, stream, k, p);
    } else {
      PlaceWithin(rest, isn, stream, k, p);
    }
    e := Place(rest, k, p).direction;
  }

  lemma SpinTurn(d: Direction, isn: Seq32, stream: seq<Byte>, k: Seq32)
    requires Tracks(d, isn, stream) && |d.data| < MODULUS && Candidates(d) != {} && k == Least(Candidates(d))
    requires Pos(isn, k) + |d.pending[k]| < Low(d, isn)
    ensures Flush(d) == Step(Spins, d)
  {
    hide Place;
    PlaceApart(d, isn, stream, k, d.pending[k]);
  }

  /** When no buffered segment crosses the end, flushing merges downwards only and loses nothing. */
  lemma {:induction false} FlushBelow(d: Direction, isn: Seq32, stream: seq<Byte>)
    requires Tracks(d, isn, stream)
    requires forall k :: k in d.pending ==> Pos(isn, k) > High(d, isn) || Pos(isn, k) + |d.pending[k]| <= High(d, isn)
    ensures
      var e := Flush(d).direction;
      && Tracks(e, isn, stream) && High(e, isn) == High(d, isn) && Low(e, isn) <= Low(d, isn)
      && forall x :: Held(e, isn, x) <==> Held(d, isn, x)
    decreases |d.pending|
  {
    hide Place, Held, Flush;
    CandidatesAreNotAhead(d, isn, stream);
    if Candidates(d) == {} {
      NothingToFlush(d);
    } else {
      var k: Seq32 := Least(Candidates(d));
      if Pos(isn, k) + |d.pending[k]| < Low(d, isn) {
        SpinTurn(d, isn, stream, k);
      } else {
        var e := MergeTurn(d, isn, stream, k);
        RemovalShrinks(d.pending, k);
        MergedIsHeld(d, e, isn, k);
        FlushBelow(e, isn, stream);
      }
    }
  }

  lemma NothingToFlush(d: Direction)
    requires d.start.Some? && |d.data| < MODULUS && Candidates(d) == {}
    ensures Flush(d) == Step(Done(false), d)
  {
  }

  /** In every reachable state: a segment reaching back before the start is spliced in front, but only up to the
      bytes already kept, and what it carries past the current end is dropped. So nothing it carries is lost if
      and only if it ends there. With nothing buffered before the start the flush that follows finds nothing. */
  lemma PrependKeepsOnlyThePrefix(d: Direction, isn: Seq32, stream: seq<Byte>, s: Segment)
    requires Tracks(d, isn, stream) && Parted(d, isn) && s.payload != []
    requires Piece(isn, stream, s.sequence, s.payload)
    requires Pos(isn, s.sequence) < Low(d, isn) <= Pos(isn, s.sequence) + |s.payload|
    ensures
      var r := AddSegment(d, s.sequence, s.payload);
      && (r.outcome == Done(true) || r.outcome == Spins)
      && Tracks(r.direction, isn, stream) && Low(r.direction, isn) <= Pos(isn, s.sequence)
          && High(r.direction, isn) == High(d, isn)
      && ((forall x :: Spans(isn, s.sequence, s.payload, x) ==> Held(r.direction, isn, x))
          <==> Pos(isn, s.sequence) + |s.payload| <= High(d, isn))
      && (Gapped(d, isn) ==>
          && r.outcome == Done(true) && r.direction.start == Some(s.sequence)
          && r.direction.pending == d.pending)
  {
    hide Place, Flush, Held, Spans;
    PlaceBelow(d, isn, stream, s.sequence, s.payload);
    var e := Place(d, s.sequence, s.payload).direction;
    FlushSound(e, isn, stream);
    FlushBelow(e, isn, stream);
    PrependedIsHeld(d, e, isn, s);
    if Gapped(d, isn) {
      CandidatesAreNotAhead(e, isn, stream);
      assert Candidates(e) == {} by {
        forall k: Seq32 | k in d.pending ensures k !in Candidates(e) { assert Pos(isn, k) > High(d, isn); }
      }
      NothingToFlush(e);
    }
  }

  lemma PrependedIsHeld(d: Direction, e: Direction, isn: Seq32, s: Segment)
    requires d.start.Some? && e.start.Some? && Parted(d, isn) && e.pending == d.pending
    requires Low(e, isn) == Pos(isn, s.sequence) < Low(d, isn) <= Pos(isn, s.sequence) + |s.payload|
        && High(e, isn) == High(d, isn)
    ensures (forall x :: Spans(isn, s.sequence, s.payload, x) ==> Held(e, isn, x))
        <==> Pos(isn, s.sequence) + |s.payload| <= High(d, isn)
  {
    assert !Held(e, isn, High(d, isn));
    if Pos(isn, s.sequence) + |s.payload| > High(d, isn) {
      assert Spans(isn, s.sequence, s.payload, High(d, isn));
    }
  }

  /** A longer retransmission that reaches back by two bytes and forward by one: the last byte is lost. */
  lemma PrependExample()
    ensures Run(EMPTY, [Segment(100, [1, 2]), Segment(98, [8, 9, 1, 2, 3])])
            == Step(Done(false), Direction(Some(98), [8, 9, 1, 2], map[]))
  {
    var a, b := Direction(Some(100), [1, 2], map[]), Direction(Some(98), [8, 9, 1, 2], map[]);
    var p := [8, 9, 1, 2, 3];
    assert [] + [1, 2] == [1, 2];
    assert AddSegment(EMPTY, 100, [1, 2]) == Step(Done(true), a) by { assert Candidates(a) == {}; }
    assert p[2..] == [1, 2, 3] && [1, 2, 3][..2] == [1, 2] == [1, 2][..2] && p[..2] + [1, 2] == b.data;
    assert Place(a, 98, p) == MustFlush(b);
    assert Candidates(b) == {};
    assert AddSegment(a, 98, p) == Step(Done(true), b);
    var run := [Segment(100, [1, 2]), Segment(98, p)];
    assert run[1..] == [Segment(98, p)];
    assert run[1..][1..] == [];
  }

  // ---- when the flush hangs ----

  /** No buffered segment ends strictly before the first byte kept. */
  ghost predicate Reaches(d: Direction, isn: Seq32)
    requires d.start.Some?
  {
    forall k :: k in d.pending ==> Pos(isn, k) + |d.pending[k]| >= Low(d, isn)
  }

  /** Termination: as long as every buffered segment reaches the start, the recursion through `add` ends, with
      the number of buffered segments as its measure, and leaves none at or before the end. */
  lemma {:induction false} FlushTerminates(d: Direction, isn: Seq32, stream: seq<Byte>)
    requires Tracks(d, isn, stream) && Reaches(d, isn)
    ensures Flush(d).outcome == Done(false)
    ensures
      var e := Flush(d).direction;
      Tracks(e, isn, stream) && Gapped(e, isn) && e.pending.Keys <= d.pending.Keys && Low(e, isn) <= Low(d, isn)
          && High(d, isn) <= High(e, isn)
    decreases |d.pending|
  {
    hide Place;
    CandidatesAreNotAhead(d, isn, stream);
    if Candidates(d) == {} {
      assert forall k :: k in d.pending ==> k !in Candidates(d);
    } else {
      var k: Seq32 := Least(Candidates(d));
      var p := d.pending[k];
      var rest := d.(pending := d.pending - {k});
      RemovalShrinks(d.pending, k);
      NotBefore(rest, isn, k, p);
      if Pos(isn, k) < Low(d, isn) {
        PlaceBelow(rest, isn, stream, k, p);
      } else {
        PlaceWithin(rest, isn, stream, k, p);
      }
      FlushTerminates(Place(rest, k, p).direction, isn, stream);
    }
  }

  ghost predicate LeastRaw(d: Direction, k: Seq32) { k in d.pending && forall j :: j in d.pending ==> k <= j }

  ghost predicate Lowest(d: Direction, isn: Seq32, k: Seq32) { k in d.pending
      && forall j :: j in d.pending ==> Pos(isn, k) <= Pos(isn, j) }

  /** Raw order and order of position differ only across the wrap. */
  lemma RawOrder(isn: Seq32, a: Seq32, b: Seq32)
    ensures a < b && Pos(isn, b) <= Pos(isn, a) ==> a < isn <= b
    ensures a < b < isn || isn <= a < b ==> Pos(isn, a) < Pos(isn, b)
    ensures Pos(isn, a) == Pos(isn, b) ==> a == b
  {
  }

  lemma SomeLeastRaw(d: Direction) returns (k: Seq32)
    requires d.pending != map[]
    ensures LeastRaw(d, k)
  {
    var keys := set j | j in d.pending.Keys :: j as int;
    var some := Any(d.pending.Keys);
    assert (some as int) in keys;
    k := Least(keys);
    forall j | j in d.pending ensures k <= j { assert (j as int) in keys; }
  }

  /** Exactly when the flush hangs. The buffer is searched in the order of raw sequence numbers, so two buffered
      segments decide: the one with the least raw number, and the lowest in the stream, which is another one only
      across the wrap. The flush hangs if and only if the former ends strictly before the start, or the latter
      ends strictly before the start that merging the former leaves. */
  lemma {:induction false} FlushHangsIff(d: Direction, isn: Seq32, stream: seq<Byte>, first: Seq32, lowest: Seq32)
    requires Tracks(d, isn, stream) && LeastRaw(d, first) && Lowest(d, isn, lowest)
    ensures Flush(d).outcome.Spins?
            <==> || Pos(isn, first) + |d.pending[first]| < Low(d, isn)
                 || Pos(isn, lowest) + |d.pending[lowest]| < Min(Low(d, isn), Pos(isn, first))
    decreases |d.pending|
  {
    hide Place, Flush;
    CandidatesAreNotAhead(d, isn, stream);
    RawOrder(isn, first, lowest);
    if Candidates(d) == {} {
      NothingToFlush(d);
      assert first !in Candidates(d) && lowest !in Candidates(d);
    } else {
      var k: Seq32 := Least(Candidates(d));
      RemovalShrinks(d.pending, k);
      if first in Candidates(d) {
        assert k == first;
        if Pos(isn, k) + |d.pending[k]| < Low(d, isn) {
          SpinTurn(d, isn, stream, k);
        } else {
          HangsLater(d, isn, stream, first, lowest);
        }
      } else {
        SelectedIsLowest(d, isn, stream, first, lowest);
        if Pos(isn, k) + |d.pending[k]| < Low(d, isn) {
          SpinTurn(d, isn, stream, k);
        } else {
          var e := MergeTurn(d, isn, stream, k);
          FlushComplete(e, isn, stream);
        }
      }
    }
  }

  lemma SelectedIsLowest(d: Direction, isn: Seq32, stream: seq<Byte>, first: Seq32, lowest: Seq32)
    requires Tracks(d, isn, stream) && LeastRaw(d, first) && Lowest(d, isn, lowest)
    requires |d.data| < MODULUS && Candidates(d) != {} && first !in Candidates(d)
    ensures Least(Candidates(d)) == lowest && Pos(isn, first) > High(d, isn)
  {
    CandidatesAreNotAhead(d, isn, stream);
    var k: Seq32 := Least(Candidates(d));
    RawOrder(isn, first, k);
    RawOrder(isn, k, lowest);
    RawOrder(isn, lowest, k);
    assert lowest in Candidates(d);
  }

  lemma {:induction false} HangsLater(d: Direction, isn: Seq32, stream: seq<Byte>, first: Seq32, lowest: Seq32)
    requires Tracks(d, isn, stream) && LeastRaw(d, first) && Lowest(d, isn, lowest)
    requires |d.data| < MODULUS && Candidates(d) != {} && first == Least(Candidates(d))
    requires Pos(isn, first) + |d.pending[first]| >= Low(d, isn)
    ensures Flush(d).outcome.Spins? <==> Pos(isn, lowest) + |d.pending[lowest]| < Min(Low(d, isn), Pos(isn, first))
    decreases |d.pending|, 0
  {
    hide Place, Flush;
    var e := MergeTurn(d, isn, stream, first);
    RemovalShrinks(d.pending, first);
    if first == lowest {
      FlushComplete(e, isn, stream);
    } else {
      assert lowest in e.pending && Lowest(e, isn, lowest);
      var next := SomeLeastRaw(e);
      FlushHangsIff(e, isn, stream, next, lowest);
      RawOrder(isn, first, lowest);
      RawOrder(isn, lowest, first);
      RawOrder(isn, first, next);
      RawOrder(isn, next, lowest);
      RawOrder(isn, lowest, next);
    }
  }

  /** Three arrivals that hang the capture: a start, a segment well before it, then the next one in order. */
  lemma HangExample()
    ensures Run(EMPTY, [Segment(100, [1, 2, 3]), Segment(50, [9]), Segment(103, [4])]).outcome == Spins
  {
    var a := Direction(Some(100), [1, 2, 3], map[]);
    assert [] + [1, 2, 3] == [1, 2, 3];
    assert AddSegment(EMPTY, 100, [1, 2, 3]) == Step(Done(true), a) by { assert Candidates(a) == {}; }
    var b := a.(pending := map[50 := [9]]);
    assert AddSegment(a, 50, [9]) == Step(Done(false), b);
    var c := b.(data := [1, 2, 3, 4]);
    assert 50 in c.pending && c.pending.Keys == {50};
    assert Candidates(c) == {50};
    assert Flush(c) == Step(Spins, c);
    assert b.data + [4] == c.data;
    assert Place(b, 103, [4]) == MustFlush(c);
    assert AddSegment(b, 103, [4]) == Step(Spins, c);
    var run := [Segment(100, [1, 2, 3]), Segment(50, [9]), Segment(103, [4])];
    assert run[1..] == [Segment(50, [9]), Segment(103, [4])];
    assert run[1..][1..] == [Segment(103, [4])];
  }
}
