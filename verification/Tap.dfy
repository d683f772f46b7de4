/** Numbering and loss accounting on the network thread (app/src/uplink/mod.rs, `announce_session` and
    `emit_event`). A full channel loses the event but not its number. */
module Tapping {
  import opened Wire

  datatype SendResult = Sent | Full | Disconnected

  /** `delivered`, `lost` and `vanished` are history: what the channel accepted, what found it full, and what
      was offered after the worker was gone. */
  datatype Tap = Tap(
    announced: bool, nextSeq: nat, pendingDropped: nat,
    delivered: seq<Event>, lost: nat, vanished: nat)

  const FRESH := Tap(false, 1, 0, [], 0, 0)

  /** Numbers one event and offers it to the channel. */
  function Offer(t: Tap, kind: EventKind, ts: nat, result: SendResult): (r: Tap)
    ensures t.delivered <= r.delivered && r.announced == t.announced
  {
    var numbered := t.(nextSeq := t.nextSeq + 1);
    match result
    case Sent => numbered.(delivered := t.delivered + [Event(t.nextSeq, ts, kind)])
    case Full => numbered.(pendingDropped := t.pendingDropped + 1, lost := t.lost + 1)
    case Disconnected => numbered.(vanished := t.vanished + 1)
  }

  /** `emit_event`: a `Dropped` marker goes first when earlier events were lost. */
  function Emit(t: Tap, kind: EventKind, ts: nat, marker: SendResult, result: SendResult): (r: Tap)
    ensures t.delivered <= r.delivered && r.announced == t.announced
  {
    if t.pendingDropped == 0 then Offer(t, kind, ts, result)
    else
      var marked := Offer(t, Dropped(t.pendingDropped), ts, marker);
      match marker
      case Sent => Offer(marked.(pendingDropped := 0), kind, ts, result)
      case Full => Offer(marked, kind, ts, result)
      case Disconnected => marked
  }

  /** `announce_session`: the session message first, once; without it nothing is emitted. */
  function Announce(t: Tap, ts: nat, session: SendResult, marker: SendResult, result: SendResult): (r: Tap)
    ensures t.delivered <= r.delivered
  {
    if t.announced || session != Sent then t
    else Emit(t.(announced := true), SessionStarted, ts, marker, result)
  }

  class SessionTap {
    var announced: bool
    var nextSeq: nat
    var pendingDropped: nat
    ghost var delivered: seq<Event>
    ghost var lost: nat
    ghost var vanished: nat

    constructor ()
      ensures Value() == FRESH
    {
      announced, nextSeq, pendingDropped, delivered, lost, vanished := false, 1, 0, [], 0, 0;
    }

    ghost function Value(): Tap
      reads this
    {
      Tap(announced, nextSeq, pendingDropped, delivered, lost, vanished)
    }

    /** Takes the next number and tries the channel. */
    method TrySend(kind: EventKind, ts: nat, result: SendResult)
      modifies this
      ensures Value() == Offer(old(Value()), kind, ts, result)
    {
      var dto := Event(nextSeq, ts, kind);
      nextSeq := nextSeq + 1;
      match result {
        case Sent => delivered := delivered + [dto];
        case Full => pendingDropped, lost := pendingDropped + 1, lost + 1;
        case Disconnected => vanished := vanished + 1;
      }
    }

    method EmitEvent(kind: EventKind, ts: nat, marker: SendResult, result: SendResult)
      modifies this
      ensures Value() == Emit(old(Value()), kind, ts, marker, result)
    {
      hide Offer;
      if pendingDropped > 0 {
        TrySend(Dropped(pendingDropped), ts, marker);
        match marker {
          case Sent => pendingDropped := 0;
          case Full =>
          case Disconnected => return;
        }
      }
      TrySend(kind, ts, result);
    }

    method AnnounceSession(ts: nat, session: SendResult, marker: SendResult, result: SendResult) returns (ok: bool)
      modifies this
      ensures Value() == Announce(old(Value()), ts, session, marker, result) && ok == announced
    {
      if announced {
        return true;
      }
      if session != Sent {
        return false;
      }
      announced := true;
      EmitEvent(SessionStarted, ts, marker, result);
      return true;
    }
  }

  // ---- accounting ----

  /** The losses the markers have confessed to. */
  function Confessed(events: seq<Event>): nat {
    if events == [] then 0
    else
      var last := events[|events| - 1];
      Confessed(events[..|events| - 1]) + (if last.kind.Dropped? then last.kind.count else 0)
  }

  /** At each marker the losses confessed so far are exactly the numbers missing so far. */
  ghost predicate MarkersAreExact(events: seq<Event>) {
    forall i :: 0 <= i < |events| && events[i].kind.Dropped?
        ==> Confessed(events[..i + 1]) == events[i].number - (i + 1)
  }

  ghost predicate Accounted(t: Tap) {
    && t.nextSeq == 1 + |t.delivered| + t.lost + t.vanished
    && Confessed(t.delivered) + t.pendingDropped == t.lost
    && Increasing(t.delivered)
    && (forall i :: 0 <= i < |t.delivered| ==> 1 <= t.delivered[i].number < t.nextSeq)
    && MarkersAreExact(t.delivered)
  }

  /** Once the worker is gone it stays gone. */
  predicate Possible(t: Tap, result: SendResult) { t.vanished > 0 ==> result == Disconnected }

  lemma Extended(events: seq<Event>, e: Event)
    ensures Confessed(events + [e]) == Confessed(events) + (if e.kind.Dropped? then e.kind.count else 0)
    ensures
      MarkersAreExact(events) && (e.kind.Dropped? ==> Confessed(events) + e.kind.count == e.number - (|events| + 1)) ==>
        MarkersAreExact(events + [e])
  {
    var all := events + [e];
    assert all[..|all| - 1] == events;
    if MarkersAreExact(events) && (e.kind.Dropped? ==> Confessed(events) + e.kind.count == e.number - (|events| + 1)) {
      forall i | 0 <= i < |all| && all[i].kind.Dropped? ensures Confessed(all[..i + 1]) == all[i].number - (i + 1) {
        if i < |events| {
          assert all[..i + 1] == events[..i + 1];
        } else {
          assert all[..i + 1] == all;
        }
      }
    }
  }

  lemma OfferIsAccounted(t: Tap, kind: EventKind, ts: nat, result: SendResult)
    requires Accounted(t) && Possible(t, result) && !kind.Dropped?
    ensures Accounted(Offer(t, kind, ts, result))
  {
    hide Confessed, MarkersAreExact;
    Extended(t.delivered, Event(t.nextSeq, ts, kind));
  }

  lemma MarkerIsAccounted(t: Tap, ts: nat)
    requires Accounted(t) && Possible(t, Sent)
    ensures Accounted(Offer(t, Dropped(t.pendingDropped), ts, Sent).(pendingDropped := 0))
  {
    hide Confessed, MarkersAreExact;
    Extended(t.delivered, Event(t.nextSeq, ts, Dropped(t.pendingDropped)));
  }

  lemma EmitIsAccounted(t: Tap, kind: EventKind, ts: nat, marker: SendResult, result: SendResult)
    requires Accounted(t) && Possible(t, marker) && Possible(t, result) && !kind.Dropped?
    requires marker.Disconnected? ==> result.Disconnected?
    ensures Accounted(Emit(t, kind, ts, marker, result))
  {
    hide Accounted;
    if t.pendingDropped == 0 {
      OfferIsAccounted(t, kind, ts, result);
    } else if marker == Sent {
      MarkerIsAccounted(t, ts);
      OfferIsAccounted(Offer(t, Dropped(t.pendingDropped), ts, Sent).(pendingDropped := 0), kind, ts, result);
    } else {
      // a marker that finds the channel full, or the worker gone, leaves the tap as any other event would
      OfferIsAccounted(t, kind, ts, marker);
      var missed := Offer(t, kind, ts, marker);
      assert missed == Offer(t, Dropped(t.pendingDropped), ts, marker);
      if marker == Full {
        OfferIsAccounted(missed, kind, ts, result);
      }
    }
  }

  // ---- runs ----

  /** One call on the tap: try to announce, then emit if announced. A reconcile goes on after its first event
      without asking again whether the session was announced. */
  datatype Call =
    | Guarded(kind: EventKind, ts: nat, session: SendResult, marker0: SendResult, result0: SendResult,
              marker: SendResult, result: SendResult)
    | Unguarded(kind: EventKind, ts: nat, marker: SendResult, result: SendResult)

  function Perform(t: Tap, c: Call): Tap {
    match c
    case Guarded(kind, ts, session, marker0, result0, marker, result) =>
      var announced := Announce(t, ts, session, marker0, result0);
      if announced.announced then Emit(announced, kind, ts, marker, result) else announced
    case Unguarded(kind, ts, marker, result) => Emit(t, kind, ts, marker, result)
  }

  /** The results a call can see: a vanished worker refuses everything from then on. */
  ghost predicate Consistent(t: Tap, c: Call) {
    && !c.kind.Dropped?
    && (c.marker.Disconnected? ==> c.result.Disconnected?)
    && match c
       case Guarded(_, ts, session, marker0, result0, marker, result) =>
         var announced := Announce(t, ts, session, marker0, result0);
         && Possible(t, session) && Possible(t, marker0) && Possible(t, result0)
         && (marker0.Disconnected? ==> result0.Disconnected?)
         && Possible(announced, marker) && Possible(announced, result)
       case Unguarded(_, _, marker, result) => Possible(t, marker) && Possible(t, result)
  }

  function Calls(t: Tap, calls: seq<Call>): Tap
    decreases |calls|
  {
    if calls == [] then t else Calls(Perform(t, calls[0]), calls[1..])
  }

  ghost predicate AllConsistent(t: Tap, calls: seq<Call>)
    decreases |calls|
  {
    calls == [] || (Consistent(t, calls[0]) && AllConsistent(Perform(t, calls[0]), calls[1..]))
  }

  /** Loss accounting over every run: numbers issued are delivered, lost or vanished; every loss is confessed
      or about to be; and each delivered marker accounts exactly for the gap it closes. */
  lemma {:induction false} LossesAreAccounted(t: Tap, calls: seq<Call>)
    requires Accounted(t) && AllConsistent(t, calls)
    ensures Accounted(Calls(t, calls))
    decreases |calls|
  {
    hide Accounted, Emit;
    if calls != [] {
      var c := calls[0];
      match c {
        case Guarded(kind, ts, session, marker0, result0, marker, result) =>
          var announced := Announce(t, ts, session, marker0, result0);
          AnnounceIsAccounted(t, ts, session, marker0, result0);
          if announced.announced {
            EmitIsAccounted(announced, kind, ts, marker, result);
          }
        case Unguarded(kind, ts, marker, result) => EmitIsAccounted(t, kind, ts, marker, result);
      }
      LossesAreAccounted(Perform(t, c), calls[1..]);
    }
  }

  lemma AnnounceIsAccounted(t: Tap, ts: nat, session: SendResult, marker: SendResult, result: SendResult)
    requires Accounted(t) && Possible(t, marker) && Possible(t, result)
        && (marker.Disconnected? ==> result.Disconnected?)
    ensures Accounted(Announce(t, ts, session, marker, result))
  {
    hide Emit;
    if !t.announced && session == Sent {
      EmitIsAccounted(t.(announced := true), SessionStarted, ts, marker, result);
    }
  }

  lemma FreshIsAccounted()
    ensures Accounted(FRESH)
  {
  }
}
