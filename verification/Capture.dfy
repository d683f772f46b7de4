/** The sniffer end to end: packets of both directions, in any order, through reassembly into the two record
    splitters, which share one counter and stop together (scanner-sweep/src/session.rs, `Sweep::ingest` and
    `consume_active`). */
module Capture {
  import opened Common
  import opened Reassembly
  import opened ReassemblyTheorems
  import Splitter = RecordSplitter

  datatype Side = Outgoing | Incoming

  datatype Packet = Packet(side: Side, segment: Segment)

  /** One value for each direction. */
  datatype Both<T> = Both(outgoing: T, incoming: T) {
    function At(side: Side): T { if side.Outgoing? then outgoing else incoming }

    function With(side: Side, value: T): Both<T> {
      if side.Outgoing? then this.(outgoing := value) else this.(incoming := value)
    }
  }

  type Flow = Both<Direction>

  datatype Active = Active(sides: Both<Splitter.Protected>, next: nat)

  datatype Tagged = Tagged(side: Side, update: Splitter.Update)

  datatype Sweep = Going(active: Active, updates: seq<Tagged>) | Stopped

  ghost predicate Level(a: Active) {
    forall side: Side :: |a.sides.At(side).plaintext| == |a.sides.At(side).ciphertext|
  }

  function Tag(side: Side, updates: seq<Splitter.Update>): seq<Tagged> {
    seq(|updates|, i requires 0 <= i < |updates| => Tagged(side, updates[i]))
  }

  /** `consume_active`: the outgoing direction first, then the incoming one with the numbers that follow. */
  function ConsumeActive(pr: Both<Splitter.Protocol>, flow: Flow, a: Active): (r: Sweep)
    requires Level(a)
    ensures r.Going? ==> Level(r.active)
  {
    assert |a.sides.At(Outgoing).plaintext| == |a.sides.At(Outgoing).ciphertext|;
    assert |a.sides.At(Incoming).plaintext| == |a.sides.At(Incoming).ciphertext|;
    var o := Splitter.ConsumeStream(pr.outgoing, a.sides.outgoing, flow.outgoing.data, a.next);
    if o.Halted? then Stopped
    else
      var i := Splitter.ConsumeStream(pr.incoming, a.sides.incoming, flow.incoming.data, o.nextSequence);
      if i.Halted? then Stopped
      else Going(Active(Both(o.protected, i.protected), i.nextSequence),
                 Tag(Outgoing, o.updates) + Tag(Incoming, i.updates))
  }

  function Then(first: seq<Tagged>, second: Sweep): Sweep {
    if second.Stopped? then Stopped else second.(updates := first + second.updates)
  }

  /** The packets after activation: each is reassembled, then both directions are consumed. An error of either
      kind ends the sweep. */
  function Follow(pr: Both<Splitter.Protocol>, flow: Flow, a: Active, packets: seq<Packet>): Sweep
    requires Level(a)
    decreases |packets|
  {
    if packets == [] then Going(a, [])
    else
      var p := packets[0];
      var added := AddSegment(flow.At(p.side), p.segment.sequence, p.segment.payload);
      if !added.outcome.Done? then Stopped
      else
        var next := flow.With(p.side, added.direction);
        var r := ConsumeActive(pr, next, a);
        if r.Stopped? then Stopped else Then(r.updates, Follow(pr, next, r.active, packets[1..]))
  }

  /** What the sweep reports from the moment protection is recognised. */
  function Report(pr: Both<Splitter.Protocol>, flow: Flow, a: Active, packets: seq<Packet>): Sweep
    requires Level(a)
  {
    var r := ConsumeActive(pr, flow, a);
    if r.Stopped? then Stopped else Then(r.updates, Follow(pr, flow, r.active, packets))
  }

  /** The object of the source, once activated: four objects updated in place. */
  class ActiveSweep {
    const outgoingFlow: TcpDirection
    const incomingFlow: TcpDirection
    const outgoing: Splitter.ProtectedDirection
    const incoming: Splitter.ProtectedDirection
    var nextSequence: nat

    constructor (outgoingFlow: TcpDirection, incomingFlow: TcpDirection, outgoing: Splitter.ProtectedDirection,
                 incoming: Splitter.ProtectedDirection, nextSequence: nat)
      ensures this.outgoingFlow == outgoingFlow && this.incomingFlow == incomingFlow
      ensures this.outgoing == outgoing && this.incoming == incoming && this.nextSequence == nextSequence
    {
      this.outgoingFlow, this.incomingFlow, this.outgoing, this.incoming := outgoingFlow, incomingFlow, outgoing,
          incoming;
      this.nextSequence := nextSequence;
    }

    ghost predicate Valid()
      reads this, outgoing, incoming
    {
      outgoingFlow != incomingFlow && outgoing != incoming && outgoing.Valid() && incoming.Valid()
    }

    ghost function FlowValue(): Flow
      reads this, outgoingFlow, incomingFlow
    {
      Both(outgoingFlow.Value(), incomingFlow.Value())
    }

    ghost function ActiveValue(): Active
      reads this, outgoing, incoming
    {
      Active(Both(outgoing.Value(), incoming.Value()), nextSequence)
    }

    method Consume(pr: Both<Splitter.Protocol>) returns (ok: bool, updates: seq<Tagged>)
      requires Valid()
      modifies this, outgoing, incoming
      ensures Valid() && FlowValue() == old(FlowValue())
      ensures
        var r := ConsumeActive(pr, old(FlowValue()), old(ActiveValue()));
        if ok then r == Going(ActiveValue(), updates) else r.Stopped?
    {
      hide Splitter.ConsumeStream;
      var failure, next, out := outgoing.Consume(pr.outgoing, outgoingFlow.data, nextSequence);
      if failure.Some? {
        return false, [];
      }
      var failed, last, inc := incoming.Consume(pr.incoming, incomingFlow.data, next);
      if failed.Some? {
        return false, [];
      }
      nextSequence := last;
      return true, Tag(Outgoing, out) + Tag(Incoming, inc);
    }

    method Ingest(pr: Both<Splitter.Protocol>, packet: Packet) returns (ok: bool, updates: seq<Tagged>)
      requires Valid()
      modifies this, outgoing, incoming, outgoingFlow, incomingFlow
      ensures Valid()
      ensures
        var added := AddSegment(old(FlowValue()).At(packet.side), packet.segment.sequence, packet.segment.payload);
        if !added.outcome.Done? then !ok
        else
          var next := old(FlowValue()).With(packet.side, added.direction);
          var r := ConsumeActive(pr, next, old(ActiveValue()));
          if ok then FlowValue() == next && r == Going(ActiveValue(), updates) else r.Stopped?
    {
      hide AddSegment, ConsumeActive;
      var outcome;
      if packet.side.Outgoing? {
        outcome := outgoingFlow.Add(packet.segment.sequence, packet.segment.payload);
      } else {
        outcome := incomingFlow.Add(packet.segment.sequence, packet.segment.payload);
      }
      if !outcome.Done? {
        return false, [];
      }
      ok, updates := Consume(pr);
    }
  }

  // ---- the two directions, side by side ----

  /** An update without its number. */
  function Plain(u: Splitter.Update): Splitter.Update { if u.Captured? then u.(sequence := 0) else u }

  function Plains(updates: seq<Splitter.Update>): seq<Splitter.Update> {
    seq(|updates|, i requires 0 <= i < |updates| => Plain(updates[i]))
  }

  function OfSide(updates: seq<Tagged>, side: Side): seq<Splitter.Update> {
    if updates == [] then []
    else (if updates[0].side == side then [updates[0].update] else []) + OfSide(updates[1..], side)
  }

  function Untagged(updates: seq<Tagged>): seq<Splitter.Update> {
    seq(|updates|, i requires 0 <= i < |updates| => updates[i].update)
  }

  /** Records carry consecutive numbers, from `first` to just before `next`. */
  ghost predicate NumberedFrom(updates: seq<Splitter.Update>, first: nat, next: nat)
    decreases |updates|
  {
    if updates == [] then first == next
    else if updates[0].Captured? then
      updates[0].sequence == first && NumberedFrom(updates[1..], Splitter.Successor(first), next)
    else NumberedFrom(updates[1..], first, next)
  }

  lemma {:induction false} NumberedJoin(a: seq<Splitter.Update>, b: seq<Splitter.Update>, n: nat, m: nat, k: nat)
    requires NumberedFrom(a, n, m) && NumberedFrom(b, m, k)
    ensures NumberedFrom(a + b, n, k)
    decreases |a|
  {
    if a == [] {
      assert a + b == b;
    } else {
      NumberedJoin(a[1..], b, if a[0].Captured? then Splitter.Successor(n) else n, m, k);
      assert (a + b)[1..] == a[1..] + b;
    }
  }

  lemma {:induction false} StatusesUnnumbered(a: seq<Splitter.Update>, n: nat)
    requires forall i :: 0 <= i < |a| ==> a[i].Status?
    ensures NumberedFrom(a, n, n)
    decreases |a|
  {
    if a != [] { StatusesUnnumbered(a[1..], n); }
  }

  lemma ReportsNumbered(pr: Splitter.Protocol, record: Splitter.Record, n: nat, m: nat)
    ensures NumberedFrom(Splitter.Reports(pr, record, n), n, Splitter.Successor(n))
    ensures Plains(Splitter.Reports(pr, record, n)) == Plains(Splitter.Reports(pr, record, m))
  {
    var reports := Splitter.Reports(pr, record, n);
    var statuses := reports[..|reports| - 1];
    var last := [Splitter.Captured(record, n)];
    assert reports == statuses + last;
    StatusesUnnumbered(statuses, n);
    assert last[1..] == [];
    NumberedJoin(statuses, last, n, n, Splitter.Successor(n));
  }

  /** The same halt, or the same leftover and the same updates but for their numbers. */
  ghost predicate Alike(a: Splitter.Outcome, b: Splitter.Outcome) {
    if a.Halted? then b.Halted? else b.Consumed? && a.protected == b.protected && Plains(a.updates) == Plains(b.updates)
  }

  lemma PlainsJoin(a: seq<Splitter.Update>, b: seq<Splitter.Update>)
    ensures Plains(a + b) == Plains(a) + Plains(b)
  {
  }

  /** Where the numbers start changes nothing else, and they are consecutive. */
  lemma {:induction false} SplitNumbered(pr: Splitter.Protocol, s: Splitter.Protected, n: nat, m: nat)
    requires |s.plaintext| == |s.ciphertext|
    ensures Alike(Splitter.Split(pr, s, n), Splitter.Split(pr, s, m))
    ensures
      var o := Splitter.Split(pr, s, n);
      o.Consumed? ==> NumberedFrom(o.updates, n, o.nextSequence)
    decreases |s.plaintext|
  {
    hide Splitter.Reports, Splitter.Successor, Plains;
    var v := Splitter.Judge(pr, s);
    if v.Accept? {
      var rest := Splitter.Advance(s, |v.record.bytes|);
      var n', m' := Splitter.Successor(n), Splitter.Successor(m);
      SplitNumbered(pr, rest, n', m');
      ReportsNumbered(pr, v.record, n, m);
      var a, b := Splitter.Split(pr, rest, n'), Splitter.Split(pr, rest, m');
      if a.Consumed? {
        NumberedJoin(Splitter.Reports(pr, v.record, n), a.updates, n, n', a.nextSequence);
        PlainsJoin(Splitter.Reports(pr, v.record, n), a.updates);
        PlainsJoin(Splitter.Reports(pr, v.record, m), b.updates);
      }
    } else {
      assert Plains([]) == Plains([]);
    }
  }

  lemma ConsumeNumbered(pr: Splitter.Protocol, s: Splitter.Protected, stream: seq<Byte>, n: nat, m: nat)
    requires |s.plaintext| == |s.ciphertext|
    ensures Alike(Splitter.ConsumeStream(pr, s, stream, n), Splitter.ConsumeStream(pr, s, stream, m))
    ensures
      var o := Splitter.ConsumeStream(pr, s, stream, n);
      o.Consumed? ==> NumberedFrom(o.updates, n, o.nextSequence) && |o.protected.plaintext| == |o.protected.ciphertext|
  {
    hide Splitter.Split;
    if |stream| >= s.cipherConsumed {
      SplitNumbered(pr, Splitter.Receive(pr, s, stream[s.cipherConsumed..]), n, m);
    }
  }

  lemma {:induction false} FeedNumbered(pr: Splitter.Protocol, s: Splitter.Protected, streams: seq<seq<Byte>>, n: nat,
                                        m: nat)
    requires |s.plaintext| == |s.ciphertext|
    ensures Alike(Splitter.Feed(pr, s, streams, n), Splitter.Feed(pr, s, streams, m))
    decreases |streams|
  {
    hide Splitter.ConsumeStream, Plains;
    if streams != [] {
      ConsumeNumbered(pr, s, streams[0], n, m);
      ConsumeNumbered(pr, s, streams[0], m, n);
      var a, b := Splitter.ConsumeStream(pr, s, streams[0], n), Splitter.ConsumeStream(pr, s, streams[0], m);
      if a.Consumed? {
        FeedNumbered(pr, a.protected, streams[1..], a.nextSequence, b.nextSequence);
        var x, y := Splitter.Feed(pr, a.protected, streams[1..], a.nextSequence),
            Splitter.Feed(pr, b.protected, streams[1..], b.nextSequence);
        if x.Consumed? {
          PlainsJoin(a.updates, x.updates);
          PlainsJoin(b.updates, y.updates);
        }
      }
    }
  }

  /** `consume_active` once for each state of the two streams. */
  function Watch(pr: Both<Splitter.Protocol>, shown: seq<Flow>, a: Active): Sweep
    requires Level(a)
    decreases |shown|
  {
    if shown == [] then Going(a, [])
    else
      var r := ConsumeActive(pr, shown[0], a);
      if r.Stopped? then Stopped else Then(r.updates, Watch(pr, shown[1..], r.active))
  }

  function Datas(shown: seq<Flow>, side: Side): seq<seq<Byte>> {
    seq(|shown|, i requires 0 <= i < |shown| => shown[i].At(side).data)
  }

  /** What one direction would report if it were watched alone. */
  function Alone(pr: Both<Splitter.Protocol>, shown: seq<Flow>, a: Active, side: Side): Splitter.Outcome
    requires Level(a)
  {
    assert |a.sides.At(side).plaintext| == |a.sides.At(side).ciphertext|;
    Splitter.Feed(pr.At(side), a.sides.At(side), Datas(shown, side), 0)
  }

  lemma {:induction false} OfSideJoin(a: seq<Tagged>, b: seq<Tagged>, side: Side)
    ensures OfSide(a + b, side) == OfSide(a, side) + OfSide(b, side)
    decreases |a|
  {
    if a == [] {
      assert a + b == b;
    } else {
      OfSideJoin(a[1..], b, side);
      assert (a + b)[1..] == a[1..] + b;
    }
  }

  lemma {:induction false} OfSideTag(updates: seq<Splitter.Update>, tag: Side, side: Side)
    ensures OfSide(Tag(tag, updates), side) == if tag == side then updates else []
    decreases |updates|
  {
    if updates != [] {
      OfSideTag(updates[1..], tag, side);
      assert Tag(tag, updates)[1..] == Tag(tag, updates[1..]);
    }
  }

  lemma UntaggedJoin(a: seq<Tagged>, b: seq<Tagged>)
    ensures Untagged(a + b) == Untagged(a) + Untagged(b)
  {
  }

  lemma UntaggedTag(side: Side, updates: seq<Splitter.Update>)
    ensures Untagged(Tag(side, updates)) == updates
  {
  }

  /** One round: each direction does what it would do alone, and the numbers run on from one to the other. */
  lemma RoundSplits(pr: Both<Splitter.Protocol>, flow: Flow, a: Active, side: Side)
    requires Level(a)
    ensures |a.sides.At(side).plaintext| == |a.sides.At(side).ciphertext|
    ensures
      var r := ConsumeActive(pr, flow, a);
      var o := Splitter.ConsumeStream(pr.At(side), a.sides.At(side), flow.At(side).data, 0);
      && (o.Halted? ==> r.Stopped?)
      && (r.Going? ==>
            && r.active.sides.At(side) == o.protected && Plains(OfSide(r.updates, side)) == Plains(o.updates)
            && NumberedFrom(Untagged(r.updates), a.next, r.active.next))
  {
    hide Splitter.ConsumeStream, Plains, Tag, Untagged, NumberedFrom;
    assert |a.sides.At(Outgoing).plaintext| == |a.sides.At(Outgoing).ciphertext|;
    assert |a.sides.At(Incoming).plaintext| == |a.sides.At(Incoming).ciphertext|;
    var o := Splitter.ConsumeStream(pr.outgoing, a.sides.outgoing, flow.outgoing.data, a.next);
    ConsumeNumbered(pr.outgoing, a.sides.outgoing, flow.outgoing.data, a.next, 0);
    if o.Consumed? {
      var i := Splitter.ConsumeStream(pr.incoming, a.sides.incoming, flow.incoming.data, o.nextSequence);
      ConsumeNumbered(pr.incoming, a.sides.incoming, flow.incoming.data, o.nextSequence, 0);
      if i.Consumed? {
        OfSideJoin(Tag(Outgoing, o.updates), Tag(Incoming, i.updates), side);
        OfSideTag(o.updates, Outgoing, side);
        OfSideTag(i.updates, Incoming, side);
        assert o.updates + [] == o.updates && [] + i.updates == i.updates;
        UntaggedJoin(Tag(Outgoing, o.updates), Tag(Incoming, i.updates));
        UntaggedTag(Outgoing, o.updates);
        UntaggedTag(Incoming, i.updates);
        NumberedJoin(o.updates, i.updates, a.next, o.nextSequence, i.nextSequence);
      }
    }
  }

  lemma RoundStops(pr: Both<Splitter.Protocol>, flow: Flow, a: Active)
    requires Level(a) && ConsumeActive(pr, flow, a).Stopped?
    ensures exists side: Side :: |a.sides.At(side).plaintext| == |a.sides.At(side).ciphertext|
                                 && Splitter.ConsumeStream(pr.At(side), a.sides.At(side), flow.At(side).data, 0).Halted?
  {
    hide Splitter.ConsumeStream;
    assert |a.sides.At(Outgoing).plaintext| == |a.sides.At(Outgoing).ciphertext|;
    assert |a.sides.At(Incoming).plaintext| == |a.sides.At(Incoming).ciphertext|;
    var o := Splitter.ConsumeStream(pr.outgoing, a.sides.outgoing, flow.outgoing.data, a.next);
    ConsumeNumbered(pr.outgoing, a.sides.outgoing, flow.outgoing.data, a.next, 0);
    if o.Consumed? {
      ConsumeNumbered(pr.incoming, a.sides.incoming, flow.incoming.data, o.nextSequence, 0);
      assert Splitter.ConsumeStream(pr.At(Incoming), a.sides.At(Incoming), flow.At(Incoming).data, 0).Halted?;
    } else {
      assert Splitter.ConsumeStream(pr.At(Outgoing), a.sides.At(Outgoing), flow.At(Outgoing).data, 0).Halted?;
    }
  }

  /** Going on: the sweep's leftover and updates of a direction are those of the direction alone, and all numbers
      are consecutive in the order of the report. */
  ghost predicate Matches(r: Sweep, alone: Splitter.Outcome, side: Side) {
    r.Going? && alone.Consumed? && r.active.sides.At(side) == alone.protected
        && Plains(OfSide(r.updates, side)) == Plains(alone.updates)
  }

  lemma AloneStep(pr: Both<Splitter.Protocol>, shown: seq<Flow>, a: Active, side: Side)
    requires Level(a) && shown != []
    ensures |a.sides.At(side).plaintext| == |a.sides.At(side).ciphertext|
    ensures
      var o := Splitter.ConsumeStream(pr.At(side), a.sides.At(side), shown[0].At(side).data, 0);
      && (o.Halted? ==> Alone(pr, shown, a, side).Halted?)
      && (o.Consumed? ==>
            && |o.protected.plaintext| == |o.protected.ciphertext|
            && var rest := Splitter.Feed(pr.At(side), o.protected, Datas(shown[1..], side), 0);
               Alike(Alone(pr, shown, a, side), Splitter.After(o, rest)))
  {
    hide Splitter.ConsumeStream, Plains;
    assert Level(a) && |a.sides.At(side).plaintext| == |a.sides.At(side).ciphertext|;
    var o := Splitter.ConsumeStream(pr.At(side), a.sides.At(side), shown[0].At(side).data, 0);
    ConsumeNumbered(pr.At(side), a.sides.At(side), shown[0].At(side).data, 0, 0);
    assert Datas(shown, side)[1..] == Datas(shown[1..], side);
    if o.Consumed? {
      FeedNumbered(pr.At(side), o.protected, Datas(shown[1..], side), o.nextSequence, 0);
      var x, y := Splitter.Feed(pr.At(side), o.protected, Datas(shown[1..], side), o.nextSequence),
                  Splitter.Feed(pr.At(side), o.protected, Datas(shown[1..], side), 0);
      if x.Consumed? {
        PlainsJoin(o.updates, x.updates);
        PlainsJoin(o.updates, y.updates);
      }
    }
  }

  lemma {:induction false} WatchMatches(pr: Both<Splitter.Protocol>, shown: seq<Flow>, a: Active, side: Side)
    requires Level(a)
    ensures Watch(pr, shown, a).Going? ==> Matches(Watch(pr, shown, a), Alone(pr, shown, a, side), side)
    ensures
      var r := Watch(pr, shown, a);
      r.Going? ==> NumberedFrom(Untagged(r.updates), a.next, r.active.next)
    decreases |shown|
  {
    hide ConsumeActive, Splitter.ConsumeStream, Plains, Untagged, NumberedFrom, Level;
    if shown == [] {
      NothingWatched(pr, a, side);
    } else {
      var r := ConsumeActive(pr, shown[0], a);
      RoundSplits(pr, shown[0], a, side);
      AloneStep(pr, shown, a, side);
      if r.Going? {
        var rest := Watch(pr, shown[1..], r.active);
        WatchMatches(pr, shown[1..], r.active, side);
        if rest.Going? {
          OfSideJoin(r.updates, rest.updates, side);
          PlainsJoin(OfSide(r.updates, side), OfSide(rest.updates, side));
          UntaggedJoin(r.updates, rest.updates);
          NumberedJoin(Untagged(r.updates), Untagged(rest.updates), a.next, r.active.next, rest.active.next);
          var o := Splitter.ConsumeStream(pr.At(side), a.sides.At(side), shown[0].At(side).data, 0);
          PlainsJoin(o.updates, Alone(pr, shown[1..], r.active, side).updates);
        }
      }
    }
  }

  lemma NothingWatched(pr: Both<Splitter.Protocol>, a: Active, side: Side)
    requires Level(a)
    ensures Matches(Watch(pr, [], a), Alone(pr, [], a, side), side) && NumberedFrom(Untagged([]), a.next, a.next)
  {
    assert |a.sides.At(side).plaintext| == |a.sides.At(side).ciphertext|;
    assert Datas([], side) == [];
  }

  /** The sweep stops exactly when one of the directions would stop alone. */
  lemma {:induction false} WatchStopsIff(pr: Both<Splitter.Protocol>, shown: seq<Flow>, a: Active)
    requires Level(a)
    ensures Watch(pr, shown, a).Stopped? <==> exists side: Side :: Alone(pr, shown, a, side).Halted?
    decreases |shown|
  {
    hide ConsumeActive, Splitter.ConsumeStream, Level, Alone;
    if Watch(pr, shown, a).Going? {
      forall side: Side ensures !Alone(pr, shown, a, side).Halted? { WatchMatches(pr, shown, a, side); }
    } else {
      StoppedAlone(pr, shown, a);
    }
  }

  lemma {:induction false} StoppedAlone(pr: Both<Splitter.Protocol>, shown: seq<Flow>, a: Active)
    requires Level(a) && Watch(pr, shown, a).Stopped?
    ensures exists side: Side :: Alone(pr, shown, a, side).Halted?
    decreases |shown|
  {
    hide ConsumeActive, Splitter.ConsumeStream, Level, Plains;
    var r := ConsumeActive(pr, shown[0], a);
    if r.Stopped? {
      RoundStops(pr, shown[0], a);
      var side: Side :| |a.sides.At(side).plaintext| == |a.sides.At(side).ciphertext|
                        && Splitter.ConsumeStream(pr.At(side), a.sides.At(side), shown[0].At(side).data, 0).Halted?;
      AloneStep(pr, shown, a, side);
    } else {
      StoppedAlone(pr, shown[1..], r.active);
      var side: Side :| Alone(pr, shown[1..], r.active, side).Halted?;
      RoundSplits(pr, shown[0], a, side);
      AloneStep(pr, shown, a, side);
      assert Alone(pr, shown, a, side).Halted?;
    }
  }

  // ---- reassembly on both sides ----

  function Of(packets: seq<Packet>, side: Side): seq<Segment> {
    if packets == [] then []
    else (if packets[0].side == side then [packets[0].segment] else []) + Of(packets[1..], side)
  }

  lemma {:induction false} OfJoin(a: seq<Packet>, b: seq<Packet>, side: Side)
    ensures Of(a + b, side) == Of(a, side) + Of(b, side)
    decreases |a|
  {
    if a == [] {
      assert a + b == b;
    } else {
      OfJoin(a[1..], b, side);
      assert (a + b)[1..] == a[1..] + b;
    }
  }

  /** The streams as the splitters see them: at activation, then after every further packet. */
  function Observed(flow: Flow, packets: seq<Packet>): (shown: seq<Flow>)
    ensures shown != [] && shown[0] == flow
    decreases |packets|
  {
    if packets == [] then [flow]
    else
      var p := packets[0];
      [flow] + Observed(flow.With(p.side,
                                  AddSegment(flow.At(p.side), p.segment.sequence, p.segment.payload).direction),
                                  packets[1..])
  }

  /** A direction in the middle of a capture that will not be refused. */
  ghost predicate Underway(d: Direction, isn: Seq32, stream: seq<Byte>, arrivals: seq<Segment>) {
    && FromStream(isn, stream, arrivals) && Tracks(d, isn, stream) && Gapped(d, isn)
    && (forall s :: s in arrivals ==> Pos(isn, s.sequence) >= Low(d, isn))
    && Run(d, arrivals).outcome.Done?
  }

  lemma UnderwayStep(d: Direction, isn: Seq32, stream: seq<Byte>, arrivals: seq<Segment>)
    requires Underway(d, isn, stream, arrivals) && arrivals != []
    ensures
      var r := AddSegment(d, arrivals[0].sequence, arrivals[0].payload);
      && r.outcome.Done? && d.data <= r.direction.data && Underway(r.direction, isn, stream, arrivals[1..])
      && Run(d, arrivals) == Run(r.direction, arrivals[1..])
  {
    hide AddSegment, Held, Spans, Piece;
    AddAhead(d, isn, stream, arrivals[0]);
  }

  lemma GrowingCons(first: seq<Byte>, rest: seq<seq<Byte>>)
    requires rest != [] && first <= rest[0] && Splitter.Growing(rest)
    ensures Splitter.Growing([first] + rest)
  {
    forall i, j | 0 <= i < j < |[first] + rest| ensures ([first] + rest)[i] <= ([first] + rest)[j] {
      if i == 0 { assert rest[0] <= rest[j - 1]; }
    }
  }

  /** The streams only grow, and each ends with what reassembly makes of its own packets. */
  lemma {:induction false} ObservedGrows(flow: Flow, isn: Both<Seq32>, stream: Both<seq<Byte>>, packets: seq<Packet>,
                                         side: Side)
    requires forall x: Side :: Underway(flow.At(x), isn.At(x), stream.At(x), Of(packets, x))
    ensures
      var streams := Datas(Observed(flow, packets), side);
      && streams != [] && Splitter.Growing(streams)
      && streams[0] == flow.At(side).data
      && streams[|streams| - 1] == Run(flow.At(side), Of(packets, side)).direction.data
    decreases |packets|
  {
    hide AddSegment, Underway, Run;
    if packets == [] {
      assert Datas([flow], side) == [flow.At(side).data];
      assert Of(packets, side) == [] && Run(flow.At(side), []) == Step(Done(false), flow.At(side)) by {
        RunNothing(flow.At(side));
      }
    } else {
      var next := PacketStep(flow, isn, stream, packets, side);
      var rest := Observed(next, packets[1..]);
      ObservedGrows(next, isn, stream, packets[1..], side);
      assert Observed(flow, packets) == [flow] + rest;
      assert Datas([flow] + rest, side) == [flow.At(side).data] + Datas(rest, side);
      GrowingCons(flow.At(side).data, Datas(rest, side));
    }
  }

  lemma RunNothing(d: Direction)
    ensures Run(d, []) == Step(Done(false), d)
  {
  }

  lemma PacketStep(flow: Flow, isn: Both<Seq32>, stream: Both<seq<Byte>>, packets: seq<Packet>, side: Side)
      returns (next: Flow)
    requires packets != [] && forall x: Side :: Underway(flow.At(x), isn.At(x), stream.At(x), Of(packets, x))
    ensures
      var p := packets[0];
      var added := AddSegment(flow.At(p.side), p.segment.sequence, p.segment.payload);
      added.outcome.Done? && next == flow.With(p.side, added.direction)
    ensures forall x: Side :: Underway(next.At(x), isn.At(x), stream.At(x), Of(packets[1..], x))
    ensures flow.At(side).data <= next.At(side).data
    ensures Run(next.At(side), Of(packets[1..], side)) == Run(flow.At(side), Of(packets, side))
  {
    hide AddSegment, Underway, Run;
    var p := packets[0];
    var added := AddSegment(flow.At(p.side), p.segment.sequence, p.segment.payload);
    next := flow.With(p.side, added.direction);
    forall x: Side
      ensures Underway(next.At(x), isn.At(x), stream.At(x), Of(packets[1..], x))
      ensures flow.At(x).data <= next.At(x).data
          && Run(next.At(x), Of(packets[1..], x)) == Run(flow.At(x), Of(packets, x))
      ensures x == p.side ==> added.outcome.Done?
    {
      var arrivals := Of(packets, x);
      assert Underway(flow.At(x), isn.At(x), stream.At(x), arrivals);
      if x == p.side {
        assert arrivals[0] == p.segment && arrivals[1..] == Of(packets[1..], x);
        UnderwayStep(flow.At(x), isn.At(x), stream.At(x), arrivals);
      } else {
        assert arrivals == Of(packets[1..], x);
      }
    }
  }

  /** With no packet refused, the report is the two splitters watching the two streams. */
  lemma {:induction false} FollowIsWatch(pr: Both<Splitter.Protocol>, flow: Flow, a: Active, packets: seq<Packet>,
                                         isn: Both<Seq32>, stream: Both<seq<Byte>>)
    requires Level(a) && forall x: Side :: Underway(flow.At(x), isn.At(x), stream.At(x), Of(packets, x))
    ensures Follow(pr, flow, a, packets) == Watch(pr, Observed(flow, packets)[1..], a)
    decreases |packets|
  {
    hide AddSegment, Underway, ConsumeActive, Level, Run, Of;
    if packets != [] {
      var next := PacketStep(flow, isn, stream, packets, Outgoing);
      var rest := Observed(next, packets[1..]);
      assert Observed(flow, packets)[1..] == rest;
      var r := ConsumeActive(pr, next, a);
      if r.Going? { FollowIsWatch(pr, next, r.active, packets[1..], isn, stream); }
    }
  }

  lemma ReportIsWatch(pr: Both<Splitter.Protocol>, flow: Flow, a: Active, packets: seq<Packet>, isn: Both<Seq32>,
                      stream: Both<seq<Byte>>)
    requires Level(a) && forall x: Side :: Underway(flow.At(x), isn.At(x), stream.At(x), Of(packets, x))
    ensures Report(pr, flow, a, packets) == Watch(pr, Observed(flow, packets), a)
  {
    hide Underway, ConsumeActive, Level, Follow, Of;
    var r := ConsumeActive(pr, flow, a);
    if r.Going? { FollowIsWatch(pr, flow, r.active, packets, isn, stream); }
  }

  // ---- whole captures ----

  /** Packets of two true streams, the lowest of each direction first, none refused. */
  ghost predicate Capturable(isn: Both<Seq32>, stream: Both<seq<Byte>>, packets: seq<Packet>) {
    forall side: Side ::
      && FromStream(isn.At(side), stream.At(side), Of(packets, side)) && FirstIsLowest(isn.At(side), Of(packets, side))
      && !Clashes(isn.At(side), Of(packets, side))
  }

  /** Reassembly of everything captured so far. */
  function FlowAfter(packets: seq<Packet>): Flow {
    Both(Run(EMPTY, Of(packets, Outgoing)).direction, Run(EMPTY, Of(packets, Incoming)).direction)
  }

  function Recognised(offset: Both<nat>, n: nat): Active {
    Active(Both(Splitter.Start(offset.outgoing), Splitter.Start(offset.incoming)), n)
  }

  /** Protection is recognised after `before`, at offsets within what each direction then holds. */
  ghost predicate ActivatedAt(isn: Both<Seq32>, stream: Both<seq<Byte>>, before: seq<Packet>, after: seq<Packet>,
                              offset: Both<nat>) {
    && Capturable(isn, stream, before + after)
    && forall side: Side :: Of(before, side) != [] && offset.At(side) <= |FlowAfter(before).At(side).data|
  }

  lemma ActivatedUnderway(isn: Both<Seq32>, stream: Both<seq<Byte>>, before: seq<Packet>, after: seq<Packet>,
                          offset: Both<nat>, side: Side)
    requires ActivatedAt(isn, stream, before, after, offset)
    ensures Underway(FlowAfter(before).At(side), isn.At(side), stream.At(side), Of(after, side))
    ensures Run(FlowAfter(before).At(side), Of(after, side)) == Run(EMPTY, Of(before + after, side))
    ensures Run(EMPTY, Of(before + after, side)).outcome.Done?
  {
    hide Run, Of, Clashes, Piece;
    var a, b := Of(before, side), Of(after, side);
    var all := a + b;
    OfJoin(before, after, side);
    assert a != [] && FromStream(isn.At(side), stream.At(side), all) && FirstIsLowest(isn.At(side), all)
        && !Clashes(isn.At(side), all);
    assert all[..|a|] == a && all[0] == a[0];
    assert forall s :: s in a ==> s in all;
    assert forall s :: s in b ==> s in all;
    PrefixDoesNotClash(isn.At(side), all, |a|);
    RefusedIffClashes(isn.At(side), stream.At(side), a);
    RefusedIffClashes(isn.At(side), stream.At(side), all);
    RunInTwoParts(EMPTY, a, b);
    CollectedStart(Run(EMPTY, a).direction, isn.At(side), stream.At(side), a);
  }

  /** One pass of a direction's splitter over the maximal contiguous prefix its packets cover. */
  function OnePass(pr: Both<Splitter.Protocol>, offset: Both<nat>, packets: seq<Packet>, side: Side): Splitter.Outcome {
    Splitter.ConsumeStream(pr.At(side), Splitter.Start(offset.At(side)), Run(EMPTY, Of(packets, side)).direction.data,
                           0)
  }

  lemma AloneIsOnePass(pr: Both<Splitter.Protocol>, isn: Both<Seq32>, stream: Both<seq<Byte>>, before: seq<Packet>,
                       after: seq<Packet>, offset: Both<nat>, n: nat, side: Side)
    requires ActivatedAt(isn, stream, before, after, offset) && Splitter.PrefixStable(pr.At(side))
    ensures Level(Recognised(offset, n))
    ensures Splitter.Agrees(Alone(pr, Observed(FlowAfter(before), after), Recognised(offset, n), side),
                            OnePass(pr, offset, before + after, side))
  {
    hide Run, Of, Underway, Capturable, Splitter.ConsumeStream, Splitter.Feed, Splitter.PrefixStable, Observed, Datas;
    var flow := FlowAfter(before);
    forall x: Side ensures Underway(flow.At(x), isn.At(x), stream.At(x), Of(after, x)) {
      ActivatedUnderway(isn, stream, before, after, offset, x);
    }
    ActivatedUnderway(isn, stream, before, after, offset, side);
    ObservedGrows(flow, isn, stream, after, side);
    assert offset.At(side) <= |flow.At(side).data|;
    Splitter.ChunkIndependent(pr.At(side), Splitter.Start(offset.At(side)), Datas(Observed(flow, after), side), 0);
  }

  /** Step by step, over out-of-order packets of both directions, the sweep stops if and only if one pass of one
      of the splitters over its maximal contiguous prefix would halt. Otherwise each direction reports the records
      of that pass and keeps its leftover, and the numbers are consecutive in the order of the report. */
  lemma ReportIsOnePass(pr: Both<Splitter.Protocol>, isn: Both<Seq32>, stream: Both<seq<Byte>>, before: seq<Packet>,
                        after: seq<Packet>, offset: Both<nat>, n: nat)
    requires forall side: Side :: Splitter.PrefixStable(pr.At(side))
    requires ActivatedAt(isn, stream, before, after, offset)
    ensures Level(Recognised(offset, n))
    ensures
      var r := Report(pr, FlowAfter(before), Recognised(offset, n), after);
      && (r.Stopped? <==> exists side: Side :: OnePass(pr, offset, before + after, side).Halted?)
      && (r.Going? ==>
            && (forall side: Side :: Matches(r, OnePass(pr, offset, before + after, side), side))
            && NumberedFrom(Untagged(r.updates), n, r.active.next))
  {
    hide Run, Of, Underway, Splitter.PrefixStable, FlowAfter, Observed, Alone, OnePass, Watch, Report, ActivatedAt;
    var flow, a := FlowAfter(before), Recognised(offset, n);
    AloneIsOnePass(pr, isn, stream, before, after, offset, n, Outgoing) by {
      assert Splitter.PrefixStable(pr.At(Outgoing));
    }
    AloneIsOnePass(pr, isn, stream, before, after, offset, n, Incoming) by {
      assert Splitter.PrefixStable(pr.At(Incoming));
    }
    forall x: Side ensures Underway(flow.At(x), isn.At(x), stream.At(x), Of(after, x)) {
      ActivatedUnderway(isn, stream, before, after, offset, x);
    }
    ReportIsWatch(pr, flow, a, after, isn, stream);
    var shown := Observed(flow, after);
    WatchStopsIff(pr, shown, a);
    WatchMatches(pr, shown, a, Outgoing);
    WatchMatches(pr, shown, a, Incoming);
    assert forall side: Side :: Alone(pr, shown, a, side).Halted? <==>
        OnePass(pr, offset, before + after, side).Halted? by {
      forall side: Side ensures Alone(pr, shown, a, side).Halted?
          <==> OnePass(pr, offset, before + after, side).Halted? {
        assert side == Outgoing || side == Incoming;
      }
    }
  }

  /** Two reports of the same two streams: both stop, or per direction the same records and the same leftover. */
  ghost predicate SameReport(a: Sweep, b: Sweep) {
    (a.Stopped? <==> b.Stopped?)
    && (a.Going? && b.Going? ==>
          forall side: Side ::
            a.active.sides.At(side) == b.active.sides.At(side)
                && Plains(OfSide(a.updates, side)) == Plains(OfSide(b.updates, side)))
  }

  /** Two captures of the same bytes, interleaved and reordered in any two ways and activated at any two moments,
      report the same or both stop. */
  lemma ReportOrderIndependent(pr: Both<Splitter.Protocol>, isn: Both<Seq32>, stream: Both<seq<Byte>>,
                               offset: Both<nat>, beforeA: seq<Packet>, afterA: seq<Packet>, n: nat,
                               beforeB: seq<Packet>, afterB: seq<Packet>, m: nat)
    requires forall side: Side :: Splitter.PrefixStable(pr.At(side))
    requires ActivatedAt(isn, stream, beforeA, afterA, offset) && ActivatedAt(isn, stream, beforeB, afterB, offset)
    requires forall side: Side, x: int :: Covered(isn.At(side), Of(beforeA + afterA, side), x) <==>
        Covered(isn.At(side), Of(beforeB + afterB, side), x)
    ensures Level(Recognised(offset, n)) && Level(Recognised(offset, m))
    ensures SameReport(Report(pr, FlowAfter(beforeA), Recognised(offset, n), afterA),
                       Report(pr, FlowAfter(beforeB), Recognised(offset, m), afterB))
  {
    hide Report, Run, Splitter.ConsumeStream, Splitter.PrefixStable, FlowAfter, Of, Plains, OfSide;
    ReportIsOnePass(pr, isn, stream, beforeA, afterA, offset, n);
    ReportIsOnePass(pr, isn, stream, beforeB, afterB, offset, m);
    var a, b := Report(pr, FlowAfter(beforeA), Recognised(offset, n), afterA),
        Report(pr, FlowAfter(beforeB), Recognised(offset, m), afterB);
    forall side: Side ensures OnePass(pr, offset, beforeA + afterA, side)
        == OnePass(pr, offset, beforeB + afterB, side) {
      SameStreams(isn, stream, beforeA + afterA, beforeB + afterB, side);
    }
    hide OnePass;
    if side: Side :| OnePass(pr, offset, beforeA + afterA, side).Halted? {
      assert OnePass(pr, offset, beforeB + afterB, side).Halted?;
    }
    if side: Side :| OnePass(pr, offset, beforeB + afterB, side).Halted? {
      assert OnePass(pr, offset, beforeA + afterA, side).Halted?;
    }
    assert a.Stopped? <==> b.Stopped?;
    forall side: Side | a.Going? && b.Going?
      ensures a.active.sides.At(side) == b.active.sides.At(side)
          && Plains(OfSide(a.updates, side)) == Plains(OfSide(b.updates, side))
    {
      assert Matches(a, OnePass(pr, offset, beforeA + afterA, side), side);
      assert Matches(b, OnePass(pr, offset, beforeB + afterB, side), side);
    }
  }

  lemma SameStreams(isn: Both<Seq32>, stream: Both<seq<Byte>>, a: seq<Packet>, b: seq<Packet>, side: Side)
    requires Capturable(isn, stream, a) && Capturable(isn, stream, b)
    requires forall x: int :: Covered(isn.At(side), Of(a, side), x) <==> Covered(isn.At(side), Of(b, side), x)
    ensures Run(EMPTY, Of(a, side)).direction.data == Run(EMPTY, Of(b, side)).direction.data
  {
    hide Run, Of, Covered;
    ReassemblyOrderIndependent(isn.At(side), stream.At(side), Of(a, side), Of(b, side));
  }
}
