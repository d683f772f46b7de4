/** The uplink end to end, for one session: tap, bounded channel, worker, network, server. Any POST may be
    delivered again at any time, replies may be lost, and the feed identity may be replaced. */
module Pipeline {
  import opened Common
  import opened Wire
  import Batching
  import Tapping
  import Store

  const CHANNEL_CAPACITY := 1024

  datatype Message = Announcement | Carried(event: Event)

  /** The worker's side of a session. */
  datatype Sink = Sink(pending: seq<Event>, ended: bool)

  /** A request on the network. `offset` is history: where its events began in what was ever buffered. */
  datatype Post = Post(feed: nat, offset: nat, events: seq<Event>)

  /** What one feed has stored for the session: `last_seq`, and the events applied, in order. */
  datatype FeedLog = FeedLog(lastSeq: int, applied: seq<Event>)

  const NO_LOG := FeedLog(-1, [])

  /** `pushed` and `discarded` are history: every event that entered the batcher, and the indices given up. */
  datatype System = System(
    tap: Tapping.Tap, channel: seq<Message>, sink: Option<Sink>, identity: Option<nat>,
    posts: set<Post>, feeds: map<nat, FeedLog>, pushed: seq<Event>, discarded: set<nat>)

  ghost predicate Initial(s: System) {
    && s.tap == Tapping.FRESH && s.channel == [] && s.sink.None?
    && s.posts == {} && s.feeds == map[] && s.pushed == [] && s.discarded == {}
  }

  datatype Reply = Accepted | Retryable | Refused | Unauthorized

  datatype Action =
    | Announce(ts: nat, session: Tapping.SendResult, marker: Tapping.SendResult, result: Tapping.SendResult)
    | Emit(kind: EventKind, ts: nat, marker: Tapping.SendResult, result: Tapping.SendResult)
    | Receive
    | Prune
    | FlushDisabled
    | FlushPost(reply: Reply)
    | ShutdownDrain
    | Deliver(post: Post)
    | Register(feed: nat)

  function Buffered(s: System): seq<Event> {
    if s.sink.Some? then s.sink.value.pending else []
  }

  /** Everything before this index of `pushed` has left the buffer for good. */
  function Start(s: System): int { |s.pushed| - |Buffered(s)| }

  function LogOf(s: System, feed: nat): FeedLog {
    if feed in s.feeds then s.feeds[feed] else NO_LOG
  }

  /** `storeEnvelope` seen from the log: only events newer than `last_seq` are applied. */
  function StoreInLog(log: FeedLog, events: seq<Event>): FeedLog {
    var recent := Store.Fresh(events, log.lastSeq);
    if recent == [] then log else FeedLog(recent[|recent| - 1].number, log.applied + recent)
  }

  function DeliverTo(feeds: map<nat, FeedLog>, feed: nat, events: seq<Event>): map<nat, FeedLog> {
    feeds[feed := StoreInLog(if feed in feeds then feeds[feed] else NO_LOG, events)]
  }

  function Carry(events: seq<Event>): (r: seq<Message>)
    ensures |r| == |events| && forall i :: 0 <= i < |r| ==> r[i] == Carried(events[i])
  {
    seq(|events|, i requires 0 <= i < |events| => Carried(events[i]))
  }

  /** The tap moved on; what the channel accepted in between joins the queue. */
  function Hand(s: System, tap: Tapping.Tap, first: seq<Message>): System
    requires s.tap.delivered <= tap.delivered
  {
    s.(tap := tap, channel := s.channel + first + Carry(tap.delivered[|s.tap.delivered|..]))
  }

  function Announced(s: System, ts: nat, session: Tapping.SendResult, marker: Tapping.SendResult,
                     result: Tapping.SendResult): System {
    if s.tap.announced || session != Tapping.Sent then s
    else Hand(s, Tapping.Announce(s.tap, ts, session, marker, result), [Announcement])
  }

  function Emitted(s: System, kind: EventKind, ts: nat, marker: Tapping.SendResult,
                   result: Tapping.SendResult): System {
    Hand(s, Tapping.Emit(s.tap, kind, ts, marker, result), [])
  }

  function Indices(first: nat, count: nat): (r: set<nat>)
    ensures forall i: nat :: i in r <==> first <= i < first + count
  {
    if count == 0 then {} else Indices(first, count - 1) + {first + count - 1}
  }

  predicate Alive(r: Tapping.SendResult) { r != Tapping.Disconnected }

  function Enqueue(s: System, e: Event): System
    requires s.sink.Some? && 0 <= Start(s)
  {
    var pending := s.sink.value.pending;
    var dropped := if |pending| >= Batching.MAX_PENDING_EVENTS then |pending| - Batching.MAX_PENDING_EVENTS + 1 else 0;
    s.(sink := Some(Sink(pending[dropped..] + [e], s.sink.value.ended || e.kind.SessionEnded?)),
       pushed := s.pushed + [e],
       discarded := s.discarded + Indices(Start(s), dropped))
  }

  function Without(s: System, count: nat): System
    requires s.sink.Some? && count <= |s.sink.value.pending|
  {
    s.(sink := Some(s.sink.value.(pending := s.sink.value.pending[count..])))
  }

  function GiveUp(s: System, count: nat): System
    requires 0 <= Start(s) && s.sink.Some? && count <= |s.sink.value.pending|
  {
    Without(s, count).(discarded := s.discarded + Indices(Start(s), count))
  }

  /** What a reconcile emits after its first event, whether or not that event found the session announced. */
  predicate Unguarded(kind: EventKind) { kind.Roster? || kind.SessionSynced? }

  predicate Enabled(s: System, a: Action) {
    match a
    case Announce(ts, session, marker, result) =>
      && Alive(session) && Alive(marker) && Alive(result)
      && |Announced(s, ts, session, marker, result).channel| <= CHANNEL_CAPACITY
    case Emit(kind, ts, marker, result) =>
      && (s.tap.announced || Unguarded(kind)) && !kind.Dropped? && Alive(marker) && Alive(result)
      && |Emitted(s, kind, ts, marker, result).channel| <= CHANNEL_CAPACITY
    case Receive => s.channel != []
    case Prune => s.sink.Some? && s.sink.value.ended && s.sink.value.pending == []
    case FlushDisabled => s.sink.Some? && Batching.ReadyCount(s.sink.value.pending).Some?
    case FlushPost(_) => s.sink.Some? && s.identity.Some? && Batching.ReadyCount(s.sink.value.pending).Some?
    case ShutdownDrain => s.sink.Some?
    case Deliver(post) => post in s.posts
    case Register(_) => s.identity.None?
  }

  function Next(s: System, a: Action): System
    requires Enabled(s, a) && 0 <= Start(s)
  {
    match a
    case Announce(ts, session, marker, result) =>
      Announced(s, ts, session, marker, result)
    case Emit(kind, ts, marker, result) => Emitted(s, kind, ts, marker, result)
    case Receive =>
      var rest := s.(channel := s.channel[1..]);
      (match s.channel[0]
       case Announcement => if s.sink.Some? then rest else rest.(sink := Some(Sink([], false)))
       case Carried(e) => if s.sink.Some? then Enqueue(rest, e) else rest)
    case Prune => s.(sink := None)
    case FlushDisabled =>
      Batching.BatchIsBounded(s.sink.value.pending);
      GiveUp(s, Batching.ReadyCount(s.sink.value.pending).value)
    case FlushPost(reply) =>
      Batching.BatchIsBounded(s.sink.value.pending);
      var count := Batching.ReadyCount(s.sink.value.pending).value;
      var batch := s.sink.value.pending[..count];
      var sent := s.(posts := s.posts + {Post(s.identity.value, Start(s), batch)});
      (match reply
       case Accepted => Without(sent, count).(feeds := DeliverTo(s.feeds, s.identity.value, batch))
       case Retryable => sent
       case Refused => GiveUp(sent, count)
       case Unauthorized => sent.(identity := None))
    case ShutdownDrain => GiveUp(s, |s.sink.value.pending|)
    case Deliver(post) => s.(feeds := DeliverTo(s.feeds, post.feed, post.events))
    case Register(feed) => s.(identity := Some(feed))
  }

  ghost predicate Runs(s: System, actions: seq<Action>, t: System)
    decreases |actions|
  {
    if actions == [] then s == t
    else Enabled(s, actions[0]) && 0 <= Start(s) && Runs(Next(s, actions[0]), actions[1..], t)
  }

  // ---- invariant ----

  /** Numbers only grow along the way: buffered history, then the channel, then what the tap will issue. */
  ghost predicate Ordered(s: System) {
    && Increasing(s.pushed)
    && (forall i, j :: 0 <= i < j < |s.channel| && s.channel[i].Carried? && s.channel[j].Carried?
                       ==> s.channel[i].event.number < s.channel[j].event.number)
    && (forall i :: 0 <= i < |s.channel| && s.channel[i].Carried? ==> s.channel[i].event.number < s.tap.nextSeq)
    && (forall i :: 0 <= i < |s.pushed| ==> s.pushed[i].number < s.tap.nextSeq)
    && (forall i, j :: 0 <= i < |s.pushed| && 0 <= j < |s.channel| && s.channel[j].Carried?
                       ==> s.pushed[i].number < s.channel[j].event.number)
  }

  /** The buffer is a suffix of everything ever pushed. */
  ghost predicate BufferIsSuffix(s: System) {
    && 0 <= Start(s)
    && Buffered(s) == s.pushed[Start(s)..]
    && |Buffered(s)| <= Batching.MAX_PENDING_EVENTS
    && (forall i :: i in s.discarded ==> i < Start(s))
  }

  /** A request carries a contiguous run of history that the buffer had reached. */
  ghost predicate Genuine(p: Post, pushed: seq<Event>, start: int) {
    && p.offset <= start && p.offset + |p.events| <= |pushed|
    && p.events == pushed[p.offset..p.offset + |p.events|]
    && Acceptable(p.events) && Batching.FirstSyncIsWhole(p.events)
  }

  /** What a feed applied is in order and came from the buffer, and nothing still buffered has been passed over. */
  ghost predicate LogSound(log: FeedLog, pushed: seq<Event>, start: int) {
    InOrder(log, pushed) && PassesNothing(log, pushed, start)
  }

  ghost predicate InOrder(log: FeedLog, pushed: seq<Event>) {
    && Increasing(log.applied)
    && (forall i :: 0 <= i < |log.applied| ==> log.applied[i] in pushed)
    && log.lastSeq == (if log.applied == [] then -1 else log.applied[|log.applied| - 1].number)
  }

  ghost predicate PassesNothing(log: FeedLog, pushed: seq<Event>, start: int) {
    forall i :: 0 <= i < |pushed| && start <= i && pushed[i].number <= log.lastSeq ==> pushed[i] in log.applied
  }

  ghost predicate Settled(feeds: map<nat, FeedLog>, e: Event) {
    exists f :: f in feeds && e in feeds[f].applied
  }

  /** Whatever has left the buffer was applied by some feed or deliberately given up. */
  ghost predicate Conserved(s: System) {
    forall i :: 0 <= i < |s.pushed| && i < Start(s) ==> i in s.discarded || Settled(s.feeds, s.pushed[i])
  }

  ghost predicate OnlyFeed(s: System, feed: nat) {
    (forall p :: p in s.posts ==> p.feed == feed) && (forall f :: f in s.feeds ==> f == feed)
  }

  ghost predicate Lossless(log: FeedLog, pushed: seq<Event>, start: int) {
    |log.applied| <= |pushed| && log.applied == pushed[..|log.applied|] && start <= |log.applied|
  }

  ghost predicate LosslessWhenAlone(s: System) {
    forall f :: OnlyFeed(s, f) && s.discarded == {} ==> Lossless(LogOf(s, f), s.pushed, Start(s))
  }

  ghost predicate Logs(s: System) {
    forall f :: f in s.feeds ==> LogSound(s.feeds[f], s.pushed, Start(s))
  }

  ghost predicate Posts(s: System) {
    forall p :: p in s.posts ==> Genuine(p, s.pushed, Start(s))
  }

  ghost predicate Inv(s: System) {
    && Tapping.Accounted(s.tap) && s.tap.vanished == 0
    && Ordered(s) && BufferIsSuffix(s) && Posts(s) && Logs(s) && Conserved(s) && LosslessWhenAlone(s)
  }

  // ---- the filter ----

  /** In an envelope in order, exactly the events from index `j` on are new. */
  ghost predicate NewFrom(events: seq<Event>, lastSeq: int, j: nat) {
    j <= |events| && forall i :: 0 <= i < |events| ==> (events[i].number > lastSeq <==> i >= j)
  }

  lemma Threshold(events: seq<Event>, lastSeq: int, j: nat, c: nat)
    requires NewFrom(events, lastSeq, j)
    requires forall i :: 0 <= i < |events| ==> (events[i].number > lastSeq <==> i >= c)
    ensures j == if c <= |events| then c else |events|
  {
    if j < |events| {
      var atJ := events[j];
    }
    if c < |events| {
      var atC := events[c];
    }
  }

  lemma {:induction false} FreshIsSuffix(events: seq<Event>, lastSeq: int) returns (j: nat)
    requires Increasing(events)
    ensures NewFrom(events, lastSeq, j) && Store.Fresh(events, lastSeq) == events[j..]
    decreases |events|
  {
    if events == [] {
      j := 0;
    } else {
      var rest := events[1..];
      var k := FreshIsSuffix(rest, lastSeq);
      j := if events[0].number > lastSeq then 0 else k + 1;
      if events[0].number > lastSeq {
        forall i | 0 <= i < |rest| ensures rest[i].number > lastSeq { assert rest[i] == events[i + 1]; }
        Threshold(rest, lastSeq, k, 0);
        assert [events[0]] + rest == events;
      } else {
        assert rest[k..] == events[j..];
      }
      forall i | 0 <= i < |events| ensures events[i].number > lastSeq <==> i >= j {
        if i > 0 { assert events[i] == rest[i - 1]; }
      }
    }
  }

  /** A delivery appends to the log the part of the envelope that is new. */
  ghost predicate Appends(log: FeedLog, events: seq<Event>, after: FeedLog, j: nat) {
    && NewFrom(events, log.lastSeq, j)
    && after.applied == log.applied + events[j..]
    && after.lastSeq == if j < |events| then events[|events| - 1].number else log.lastSeq
  }

  lemma Delivery(log: FeedLog, events: seq<Event>) returns (j: nat)
    requires Increasing(events)
    ensures Appends(log, events, StoreInLog(log, events), j)
  {
    j := FreshIsSuffix(events, log.lastSeq);
    if j == |events| {
      assert log.applied + events[j..] == log.applied;
    }
  }

  lemma AppendedSound(applied: seq<Event>, lastSeq: int, more: seq<Event>, pushed: seq<Event>)
    requires Increasing(applied) && Increasing(more)
    requires forall i :: 0 <= i < |applied| ==> applied[i].number <= lastSeq && applied[i] in pushed
    requires forall i :: 0 <= i < |more| ==> more[i].number > lastSeq && more[i] in pushed
    ensures Increasing(applied + more) && forall i :: 0 <= i < |applied + more| ==> (applied + more)[i] in pushed
  {
  }

  /** Delivering a genuine request, at whatever time, keeps a log sound and applies what is still buffered. */
  lemma DeliverySound(log: FeedLog, pushed: seq<Event>, start: int, p: Post)
    requires Increasing(pushed) && LogSound(log, pushed, start) && Genuine(p, pushed, start)
    ensures LogSound(StoreInLog(log, p.events), pushed, start)
    ensures forall e :: e in log.applied ==> e in StoreInLog(log, p.events).applied
    ensures forall i :: 0 <= i < |p.events| && start <= p.offset + i ==>
        p.events[i] in StoreInLog(log, p.events).applied
  {
    hide StoreInLog, InOrder, PassesNothing, Appends;
    var j := Delivery(log, p.events);
    DeliveryInOrder(log, pushed, start, p, StoreInLog(log, p.events), j);
    DeliveryPassesNothing(log, pushed, start, p, StoreInLog(log, p.events), j);
  }

  lemma DeliveryInOrder(log: FeedLog, pushed: seq<Event>, start: int, p: Post, after: FeedLog, j: nat)
    requires Increasing(pushed) && LogSound(log, pushed, start) && Genuine(p, pushed, start)
    requires Appends(log, p.events, after, j)
    ensures InOrder(after, pushed)
  {
    hide Acceptable, Batching.FirstSyncIsWhole;
    var recent := p.events[j..];
    assert Increasing(recent) by { assert Acceptable(p.events); TailIncreasing(p.events, j); }
    forall i | 0 <= i < |recent| ensures recent[i].number > log.lastSeq && recent[i] in pushed {
      var k := j + i;
      assert recent[i] == p.events[k] && p.events[k] == pushed[p.offset + k];
    }
    AppendedSound(log.applied, log.lastSeq, recent, pushed);
  }

  lemma TailIncreasing(events: seq<Event>, j: nat)
    requires Acceptable(events) && j <= |events|
    ensures Increasing(events[j..])
  {
  }

  lemma InLonger(a: seq<Event>, b: seq<Event>)
    ensures forall e :: e in a ==> e in a + b
    ensures forall e :: e in b ==> e in a + b
  {
  }

  /** Everything in the request that was still buffered is in the log afterwards. */
  lemma RequestIsApplied(log: FeedLog, pushed: seq<Event>, start: int, p: Post, after: FeedLog, j: nat, i: nat)
    requires LogSound(log, pushed, start) && Genuine(p, pushed, start) && Appends(log, p.events, after, j)
    requires i < |p.events| && start <= p.offset + i
    ensures p.events[i] in after.applied
  {
  }

  lemma DeliveryPassesNothing(log: FeedLog, pushed: seq<Event>, start: int, p: Post, after: FeedLog, j: nat)
    requires Increasing(pushed) && LogSound(log, pushed, start) && Genuine(p, pushed, start)
    requires Appends(log, p.events, after, j)
    ensures PassesNothing(after, pushed, start)
    ensures forall i :: 0 <= i < |p.events| && start <= p.offset + i ==> p.events[i] in after.applied
    ensures forall e :: e in log.applied ==> e in after.applied
  {
    forall i | 0 <= i < |p.events| && start <= p.offset + i ensures p.events[i] in after.applied {
      RequestIsApplied(log, pushed, start, p, after, j, i);
    }
    InLonger(log.applied, p.events[j..]);
    forall i | 0 <= i < |pushed| && start <= i && pushed[i].number <= after.lastSeq ensures pushed[i] in after.applied {
      PassedIsApplied(log, pushed, start, p, after, j, i);
    }
  }

  lemma PassedIsApplied(log: FeedLog, pushed: seq<Event>, start: int, p: Post, after: FeedLog, j: nat, i: nat)
    requires Increasing(pushed) && LogSound(log, pushed, start) && Genuine(p, pushed, start)
    requires Appends(log, p.events, after, j)
    requires i < |pushed| && start <= i && pushed[i].number <= after.lastSeq
    ensures pushed[i] in after.applied
  {
    hide Batching.FirstSyncIsWhole, Increasing;
    InLonger(log.applied, p.events[j..]);
    if pushed[i].number > log.lastSeq {
      InsideRequest(pushed, p, i);
      RequestIsApplied(log, pushed, start, p, after, j, i - p.offset);
      assert p.events[i - p.offset] == pushed[i];
    }
  }

  lemma InsideRequest(pushed: seq<Event>, p: Post, i: nat)
    requires Increasing(pushed) && p.events != [] && p.offset + |p.events| <= |pushed|
    requires p.events == pushed[p.offset..p.offset + |p.events|]
    requires i < |pushed| && pushed[i].number <= p.events[|p.events| - 1].number
    ensures i < p.offset + |p.events|
  {
  }

  /** With nothing lost, the log is a prefix of history and a delivery only lengthens it. */
  lemma DeliveryLossless(log: FeedLog, pushed: seq<Event>, start: int, p: Post)
    requires Increasing(pushed) && LogSound(log, pushed, start) && Lossless(log, pushed, start)
        && Genuine(p, pushed, start)
    ensures Lossless(StoreInLog(log, p.events), pushed, start)
    ensures |StoreInLog(log, p.events).applied| >= p.offset + |p.events|
  {
    hide StoreInLog, Batching.FirstSyncIsWhole;
    var j := Delivery(log, p.events);
    var k := |log.applied|;
    var end := p.offset + |p.events|;
    NewFromWhereHistoryEnds(log, pushed, start, p, j);
    if end <= k {
      assert log.applied + p.events[j..] == log.applied;
    } else {
      JoinSlices(pushed, k, p.offset, end, j);
    }
  }

  lemma NewFromWhereHistoryEnds(log: FeedLog, pushed: seq<Event>, start: int, p: Post, j: nat)
    requires Increasing(pushed) && LogSound(log, pushed, start) && Lossless(log, pushed, start)
        && Genuine(p, pushed, start)
    requires NewFrom(p.events, log.lastSeq, j)
    ensures j == if p.offset + |p.events| <= |log.applied| then |p.events| else |log.applied| - p.offset
  {
    hide Batching.FirstSyncIsWhole;
    var k := |log.applied|;
    assert k > 0 ==> log.applied[k - 1] == pushed[k - 1];
    forall i | 0 <= i < |p.events| ensures p.events[i].number > log.lastSeq <==> i >= k - p.offset {
      assert p.events[i] == pushed[p.offset + i];
    }
    Threshold(p.events, log.lastSeq, j, k - p.offset);
  }

  lemma JoinSlices(pushed: seq<Event>, k: nat, offset: nat, end: nat, j: nat)
    requires offset <= k <= end <= |pushed| && j == k - offset
    ensures pushed[..k] + pushed[offset..end][j..] == pushed[..end]
  {
  }
}
