/** One direction of a sniffed TCP connection, rebuilt from segments that arrive in any order
    (scanner-sweep/src/packet.rs). Sequence numbers live modulo 2^32 as in section 3.4 of RFC 9293. */
module Reassembly {
  import opened Common

  const MODULUS := 0x1_0000_0000
  const HALF := 0x8000_0000

  type Seq32 = x: int | 0 <= x < MODULUS

  function WrappingAdd(a: Seq32, n: nat): Seq32
    requires n < MODULUS
  {
    if a + n < MODULUS then a + n else a + n - MODULUS
  }

  function WrappingSub(a: Seq32, b: Seq32): Seq32 {
    if a >= b then a - b else a - b + MODULUS
  }

  datatype Direction = Direction(start: Option<Seq32>, data: seq<Byte>, pending: map<Seq32, seq<Byte>>)

  /** `Spins` stands for the flush loop that never ends: it keeps selecting a buffered segment that lies
      wholly before the start and keeps putting it back (see SpinningIterationChangesNothing). */
  datatype Outcome = Done(grew: bool) | Conflict | TooLong | Spins

  datatype Step = Step(outcome: Outcome, direction: Direction)

  /** What `add` does with a segment before any flush: it is finished, or the buffer must now be flushed. */
  datatype Placement = Settled(outcome: Outcome, direction: Direction) | MustFlush(direction: Direction)

  datatype Segment = Segment(sequence: Seq32, payload: seq<Byte>)

  const EMPTY := Direction(None, [], map[])

  function InsertPending(d: Direction, sequence: Seq32, payload: seq<Byte>): Placement {
    if sequence in d.pending && d.pending[sequence] != payload
    then Settled(Conflict, d)
    else Settled(Done(false), d.(pending := d.pending[sequence := payload]))
  }

  /** The segment ends strictly before the first byte kept. */
  predicate WhollyBefore(d: Direction, sequence: Seq32, payload: seq<Byte>) {
    && d.start.Some?
    && WrappingSub(sequence, d.start.value) > HALF
    && WrappingSub(d.start.value, sequence) > |payload|
  }

  function Place(d: Direction, sequence: Seq32, payload: seq<Byte>): (p: Placement)
    ensures p.MustFlush? ==> p.direction.pending == d.pending
  {
    if d.start.None? then
      MustFlush(d.(start := Some(sequence), data := d.data + payload))
    else if |d.data| >= MODULUS then
      Settled(TooLong, d)
    else
      var start := d.start.value;
      var end := WrappingAdd(start, |d.data|);
      if WrappingSub(sequence, start) > HALF then
        var prefix := WrappingSub(start, sequence);
        if prefix <= |payload| then
          var overlap := payload[prefix..];
          var comparable := Min(|overlap|, |d.data|);
          if d.data[..comparable] != overlap[..comparable]
          then Settled(Conflict, d)
          else MustFlush(d.(data := payload[..prefix] + d.data, start := Some(sequence)))
        else
          InsertPending(d, sequence, payload)
      else if WrappingSub(sequence, end) < HALF && sequence != end then
        InsertPending(d, sequence, payload)
      else
        var offset := WrappingSub(sequence, start);
        if offset < |d.data| then
          var comparable := Min(|payload|, |d.data| - offset);
          if d.data[offset..offset + comparable] != payload[..comparable]
          then Settled(Conflict, d)
          else MustFlush(d.(data := d.data + payload[comparable..]))
        else
          MustFlush(d.(data := d.data + payload))
  }

  function Candidates(d: Direction): set<int>
    requires d.start.Some? && |d.data| < MODULUS
  {
    var end := WrappingAdd(d.start.value, |d.data|);
    set k | k in d.pending.Keys && (WrappingSub(k, end) > HALF || k == end) :: k
  }

  /** The flush loop, with the recursion through `add` unfolded: each iteration places one buffered segment. */
  function Flush(d: Direction): (s: Step)
    ensures s.direction.pending.Keys <= d.pending.Keys
    decreases |d.pending|
  {
    if d.start.None? then Step(Done(false), d)
    else if |d.data| >= MODULUS then Step(TooLong, d)
    else if Candidates(d) == {} then Step(Done(false), d)
    else
      var sequence: Seq32 := Least(Candidates(d));
      var payload := d.pending[sequence];
      var rest := d.(pending := d.pending - {sequence});
      RemovalShrinks(d.pending, sequence);
      if payload == [] then Flush(rest)
      else if WhollyBefore(rest, sequence, payload) then Step(Spins, d)
      else
        var placed := Place(rest, sequence, payload);
        CandidateIsNotBuffered(d, sequence);
        if placed.Settled? then Step(placed.outcome, placed.direction)
        else Flush(placed.direction)
  }

  /** `TcpDirection::add`. */
  function AddSegment(d: Direction, sequence: Seq32, payload: seq<Byte>): Step {
    if payload == [] then Step(Done(false), d)
    else
      var placed := Place(d, sequence, payload);
      if placed.Settled? then Step(placed.outcome, placed.direction)
      else
        var flushed := Flush(placed.direction);
        if flushed.outcome.Done?
        then Step(Done(d.start.None? || |flushed.direction.data| != |d.data|), flushed.direction)
        else flushed
  }

  lemma RemovalShrinks(m: map<Seq32, seq<Byte>>, k: Seq32)
    requires k in m
    ensures |m - {k}| < |m|
  {
  }

  /** A selected segment that is not wholly before the start is never put back. */
  lemma CandidateIsNotBuffered(d: Direction, sequence: Seq32)
    requires d.start.Some? && |d.data| < MODULUS && sequence in Candidates(d) && d.pending[sequence] != []
    requires !WhollyBefore(d, sequence, d.pending[sequence])
    ensures
      var p := Place(d.(pending := d.pending - {sequence}), sequence, d.pending[sequence]);
      p.MustFlush? || (p.outcome.Conflict? && p.direction == d.(pending := d.pending - {sequence}))
  {
  }

  /** The iteration the source repeats for ever: take the segment out, put it back, select it again. */
  lemma SpinningIterationChangesNothing(d: Direction)
    requires d.start.Some? && |d.data| < MODULUS && Candidates(d) != {}
    ensures
      var sequence: Seq32 := Least(Candidates(d));
      var payload := d.pending[sequence];
      payload != [] && WhollyBefore(d, sequence, payload)
      ==> Place(d.(pending := d.pending - {sequence}), sequence, payload) == Settled(Done(false), d)
          && Flush(d) == Step(Spins, d)
  {
    var sequence: Seq32 := Least(Candidates(d));
    assert (d.pending - {sequence})[sequence := d.pending[sequence]] == d.pending;
  }

  lemma {:induction false} FlushLeavesNoCandidate(d: Direction)
    ensures Flush(d).outcome.Done? ==>
              var e := Flush(d).direction;
              Flush(d) == Flush(e) == Step(Done(false), e)
    decreases |d.pending|
  {
    if d.start.Some? && |d.data| < MODULUS && Candidates(d) != {} {
      var sequence: Seq32 := Least(Candidates(d));
      var payload := d.pending[sequence];
      var rest := d.(pending := d.pending - {sequence});
      RemovalShrinks(d.pending, sequence);
      if payload == [] {
        FlushLeavesNoCandidate(rest);
      } else if !WhollyBefore(rest, sequence, payload) {
        CandidateIsNotBuffered(d, sequence);
        var placed := Place(rest, sequence, payload);
        if placed.MustFlush? {
          FlushLeavesNoCandidate(placed.direction);
        }
      }
    }
  }

  /** One turn of the source's loop: remove the segment, call `add` on it (which flushes in turn), go round. */
  lemma FlushIsAddThenFlush(d: Direction)
    requires d.start.Some? && |d.data| < MODULUS && Candidates(d) != {}
    ensures
      var sequence: Seq32 := Least(Candidates(d));
      var payload := d.pending[sequence];
      var turn := AddSegment(d.(pending := d.pending - {sequence}), sequence, payload);
      payload == [] || !WhollyBefore(d, sequence, payload) ==>
        |turn.direction.pending| < |d.pending|
            && (if turn.outcome.Done? then Flush(turn.direction) else turn) == Flush(d)
  {
    hide Place;
    var sequence: Seq32 := Least(Candidates(d));
    var payload := d.pending[sequence];
    var rest := d.(pending := d.pending - {sequence});
    RemovalShrinks(d.pending, sequence);
    if payload != [] && !WhollyBefore(d, sequence, payload) {
      CandidateIsNotBuffered(d, sequence);
      var placed := Place(rest, sequence, payload);
      if placed.MustFlush? {
        FlushLeavesNoCandidate(placed.direction);
        KeysBoundSize(Flush(placed.direction).direction.pending, rest.pending);
      }
    }
  }

  /** The object of the source: a buffer and a pending map updated in place, with `add` and the flush loop
      calling each other. */
  class TcpDirection {
    var start: Option<Seq32>
    var data: seq<Byte>
    var pending: map<Seq32, seq<Byte>>

    constructor ()
      ensures Value() == EMPTY
    {
      start, data, pending := None, [], map[];
    }

    function Value(): Direction
      reads this
    {
      Direction(start, data, pending)
    }

    method Add(sequence: Seq32, payload: seq<Byte>) returns (outcome: Outcome)
      modifies this
      ensures Step(outcome, Value()) == AddSegment(old(Value()), sequence, payload)
      decreases |pending|, 1
    {
      hide Flush;
      if payload == [] {
        return Done(false);
      }
      var previousLength := |data|;
      if start.None? {
        start := Some(sequence);
        data := data + payload;
        var flushed := FlushPending();
        return if flushed.Done? then Done(true) else flushed;
      }
      if |data| >= MODULUS {
        return TooLong;
      }
      var first := start.value;
      var end := WrappingAdd(first, |data|);
      if WrappingSub(sequence, first) > HALF {
        var prefix := WrappingSub(first, sequence);
        if prefix <= |payload| {
          var overlap := payload[prefix..];
          var comparable := Min(|overlap|, |data|);
          if data[..comparable] != overlap[..comparable] {
            return Conflict;
          }
          data := payload[..prefix] + data;
          start := Some(sequence);
          var flushed := FlushPending();
          return if flushed.Done? then Done(|data| != previousLength) else flushed;
        }
        outcome := Buffer(sequence, payload);
        return;
      }
      if WrappingSub(sequence, end) < HALF && sequence != end {
        outcome := Buffer(sequence, payload);
        return;
      }
      var offset := WrappingSub(sequence, first);
      if offset < |data| {
        var comparable := Min(|payload|, |data| - offset);
        if data[offset..offset + comparable] != payload[..comparable] {
          return Conflict;
        }
        data := data + payload[comparable..];
      } else {
        data := data + payload;
      }
      var flushed := FlushPending();
      return if flushed.Done? then Done(|data| != previousLength) else flushed;
    }

    method Buffer(sequence: Seq32, payload: seq<Byte>) returns (outcome: Outcome)
      modifies this
      ensures InsertPending(old(Value()), sequence, payload) == Settled(outcome, Value())
    {
      if sequence in pending && pending[sequence] != payload {
        return Conflict;
      }
      pending := pending[sequence := payload];
      return Done(false);
    }

    method FlushPending() returns (outcome: Outcome)
      modifies this
      ensures Step(outcome, Value()) == Flush(old(Value()))
      decreases |pending|, 0
    {
      while true
        invariant Flush(Value()) == Flush(old(Value()))
        invariant |pending| <= old(|pending|)
        decreases |pending|
      {
        if start.None? {
          return Done(false);
        }
        if |data| >= MODULUS {
          return TooLong;
        }
        if Candidates(Value()) == {} {
          return Done(false);
        }
        var sequence: Seq32 := Least(Candidates(Value()));
        var payload := pending[sequence];
        if payload != [] && WhollyBefore(Value(), sequence, payload) {
          return Spins;
        }
        RemovalShrinks(pending, sequence);
        FlushIsAddThenFlush(Value());
        pending := pending - {sequence};
        var inner := Add(sequence, payload);
        if !inner.Done? {
          return inner;
        }
      }
    }
  }

  lemma KeysBoundSize(a: map<Seq32, seq<Byte>>, b: map<Seq32, seq<Byte>>)
    requires a.Keys <= b.Keys
    ensures |a| <= |b|
  {
    assert |b.Keys| == |a.Keys| + |b.Keys - a.Keys| by {
      assert b.Keys == a.Keys + (b.Keys - a.Keys);
    }
  }
}
