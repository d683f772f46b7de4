/** Safety of the uplink over every run: the invariant of `Pipeline` is kept by each step, and what it says
    to a reader of the feed. */
module PipelineSafety {
  import opened Common
  import opened Wire
  import opened Pipeline
  import Batching
  import Tapping

  // ---- the tap's steps ----

  /** What a call adds to `delivered` is numbered from where the tap stood. */
  ghost predicate Numbers(t: Tapping.Tap, r: Tapping.Tap) {
    && t.delivered <= r.delivered && t.nextSeq <= r.nextSeq
    && (forall i :: |t.delivered| <= i < |r.delivered| ==> t.nextSeq <= r.delivered[i].number < r.nextSeq)
    && (forall i, j :: |t.delivered| <= i < j < |r.delivered| ==> r.delivered[i].number < r.delivered[j].number)
  }

  lemma EmitNumbers(t: Tapping.Tap, kind: EventKind, ts: nat, marker: Tapping.SendResult, result: Tapping.SendResult)
    ensures Numbers(t, Tapping.Emit(t, kind, ts, marker, result))
  {
    hide Tapping.Offer, Numbers;
    if t.pendingDropped == 0 {
      OfferNumbers(t, kind, ts, result);
    } else {
      var marked := Tapping.Offer(t, Dropped(t.pendingDropped), ts, marker);
      var cleared := if marker == Tapping.Sent then marked.(pendingDropped := 0) else marked;
      OfferNumbers(t, Dropped(t.pendingDropped), ts, marker);
      NumbersIgnoreCount(t, marked, cleared);
      OfferNumbers(cleared, kind, ts, result);
      NumbersJoin(t, cleared, Tapping.Offer(cleared, kind, ts, result));
    }
  }

  lemma OfferNumbers(t: Tapping.Tap, kind: EventKind, ts: nat, result: Tapping.SendResult)
    ensures Numbers(t, Tapping.Offer(t, kind, ts, result))
  {
  }

  lemma NumbersIgnoreCount(t: Tapping.Tap, r: Tapping.Tap, u: Tapping.Tap)
    requires Numbers(t, r) && u.delivered == r.delivered && u.nextSeq == r.nextSeq
    ensures Numbers(t, u)
  {
  }

  lemma NumbersJoin(a: Tapping.Tap, b: Tapping.Tap, c: Tapping.Tap)
    requires Numbers(a, b) && Numbers(b, c)
    ensures Numbers(a, c)
  {
  }

  lemma HandKeeps(s: System, tap: Tapping.Tap, first: seq<Message>)
    requires Inv(s) && Numbers(s.tap, tap) && Tapping.Accounted(tap) && tap.vanished == 0
    requires forall i :: 0 <= i < |first| ==> first[i].Announcement?
    ensures Inv(Hand(s, tap, first))
  {
    hide Tapping.Accounted, LogSound, Genuine, Lossless, Settled;
    var n := Hand(s, tap, first);
    var fresh' := Carry(tap.delivered[|s.tap.delivered|..]);
    var base := |s.channel| + |first|;
    assert n.channel == s.channel + first + fresh';
    forall i | base <= i < |n.channel| ensures n.channel[i] == Carried(tap.delivered[|s.tap.delivered| + (i - base)]) {
    }
    SameBuffer(s, n);
  }

  /** Steps that leave history, buffer, network and logs alone keep what is said about them. */
  lemma SameBuffer(s: System, n: System)
    requires BufferIsSuffix(s) && Posts(s) && Logs(s) && Conserved(s) && LosslessWhenAlone(s)
    requires n.pushed == s.pushed && Buffered(n) == Buffered(s) && n.posts == s.posts && n.feeds == s.feeds
    requires n.discarded == s.discarded
    ensures BufferIsSuffix(n) && Posts(n) && Logs(n) && Conserved(n) && LosslessWhenAlone(n)
  {
    hide LogSound, Genuine, Lossless, Settled;
    forall f | OnlyFeed(n, f) && n.discarded == {} ensures Lossless(LogOf(n, f), n.pushed, Start(n)) {
      assert OnlyFeed(s, f);
    }
  }

  lemma TapSteps(s: System, a: Action)
    requires Inv(s) && Enabled(s, a) && (a.Announce? || a.Emit?)
    ensures Inv(Next(s, a))
  {
    hide Inv, Tapping.Emit, Tapping.Accounted, Numbers, Ordered;
    match a
    case Announce(ts, session, marker, result) =>
      assert Tapping.Accounted(s.tap) && s.tap.vanished == 0 by { InvTap(s); }
      if !s.tap.announced && session == Tapping.Sent {
        var t := s.tap.(announced := true);
        AnnouncedAccounted(s.tap);
        Tapping.EmitIsAccounted(t, SessionStarted, ts, marker, result);
        EmitNumbers(t, SessionStarted, ts, marker, result);
        EmitAlive(t, SessionStarted, ts, marker, result);
        NumbersIgnoreAnnounced(s.tap, Tapping.Emit(t, SessionStarted, ts, marker, result));
        HandKeeps(s, Tapping.Announce(s.tap, ts, session, marker, result), [Announcement]);
      }
    case Emit(kind, ts, marker, result) =>
      assert Tapping.Accounted(s.tap) && s.tap.vanished == 0 by { InvTap(s); }
      Tapping.EmitIsAccounted(s.tap, kind, ts, marker, result);
      EmitNumbers(s.tap, kind, ts, marker, result);
      EmitAlive(s.tap, kind, ts, marker, result);
      HandKeeps(s, Tapping.Emit(s.tap, kind, ts, marker, result), []);
  }

  lemma InvTap(s: System)
    requires Inv(s)
    ensures Tapping.Accounted(s.tap) && s.tap.vanished == 0
  {
  }

  lemma AnnouncedAccounted(t: Tapping.Tap)
    requires Tapping.Accounted(t)
    ensures Tapping.Accounted(t.(announced := true))
  {
  }

  lemma NumbersIgnoreAnnounced(t: Tapping.Tap, r: Tapping.Tap)
    requires Numbers(t.(announced := true), r)
    ensures Numbers(t, r)
  {
  }

  lemma EmitAlive(t: Tapping.Tap, kind: EventKind, ts: nat, marker: Tapping.SendResult, result: Tapping.SendResult)
    requires t.vanished == 0 && Alive(marker) && Alive(result)
    ensures Tapping.Emit(t, kind, ts, marker, result).vanished == 0
  {
  }

  // ---- the worker's steps ----

  /** The buffer's front moved from `Start(s)` to `Start(n)`, every index in between accounted for. */
  lemma FrontMoves(s: System, n: System)
    requires BufferIsSuffix(s) && Posts(s) && Logs(s) && Conserved(s)
    requires s.pushed <= n.pushed && Start(s) <= Start(n) && s.posts == n.posts && s.feeds == n.feeds
    requires s.discarded <= n.discarded
    requires forall i :: Start(s) <= i < Start(n) && i < |n.pushed| ==>
        i in n.discarded || Settled(n.feeds, n.pushed[i])
    requires forall e :: e in s.pushed ==> e in n.pushed
    requires forall i, f :: |s.pushed| <= i < |n.pushed| && f in s.feeds ==> n.pushed[i].number > s.feeds[f].lastSeq
    ensures Posts(n) && Logs(n) && Conserved(n)
  {
  }

  lemma ReceiveKeeps(s: System)
    requires Inv(s) && Enabled(s, Receive)
    ensures Inv(Next(s, Receive))
  {
    hide Tapping.Accounted, LogSound, Genuine, Lossless, Settled, Enqueue;
    var rest := s.(channel := s.channel[1..]);
    assert forall i :: 0 <= i < |rest.channel| ==> rest.channel[i] == s.channel[i + 1];
    SameBuffer(s, rest);
    var n := Next(s, Receive);
    if s.channel[0].Carried? && s.sink.Some? {
      EnqueueKeeps(rest, s.channel[0].event);
    } else {
      SameBuffer(s, n);
    }
  }

  lemma EnqueueKeeps(s: System, e: Event)
    requires Inv(s) && s.sink.Some?
    requires e.number < s.tap.nextSeq
    requires forall i :: 0 <= i < |s.pushed| ==> s.pushed[i].number < e.number
    requires forall i :: 0 <= i < |s.channel| && s.channel[i].Carried? ==> e.number < s.channel[i].event.number
    ensures Inv(Enqueue(s, e))
  {
    hide Tapping.Accounted, Posts, Logs, Conserved, BufferIsSuffix, LosslessWhenAlone;
    EnqueueSuffix(s, e);
    assert Ordered(Enqueue(s, e));
    EnqueueFront(s, e);
    EnqueueLossless(s, e);
  }

  lemma EnqueueFront(s: System, e: Event)
    requires BufferIsSuffix(s) && Posts(s) && Logs(s) && Conserved(s) && s.sink.Some?
    requires forall i :: 0 <= i < |s.pushed| ==> s.pushed[i].number < e.number
    ensures 0 <= Start(s) && Posts(Enqueue(s, e)) && Logs(Enqueue(s, e)) && Conserved(Enqueue(s, e))
  {
  }

  lemma EnqueueLossless(s: System, e: Event)
    requires BufferIsSuffix(s) && LosslessWhenAlone(s) && s.sink.Some?
    ensures 0 <= Start(s) && LosslessWhenAlone(Enqueue(s, e))
  {
    EnqueueSuffix(s, e);
    var n := Enqueue(s, e);
    forall f | OnlyFeed(n, f) && n.discarded == {} ensures Lossless(LogOf(n, f), n.pushed, Start(n)) {
      assert OnlyFeed(s, f) && Lossless(LogOf(s, f), s.pushed, Start(s));
      var first: nat := Start(s);
      assert first !in n.discarded;
    }
  }

  lemma EnqueueSuffix(s: System, e: Event)
    requires BufferIsSuffix(s) && s.sink.Some?
    ensures 0 <= Start(s)
    ensures
      var n := Enqueue(s, e);
      && BufferIsSuffix(n) && Start(s) <= Start(n)
      && forall i: nat :: Start(s) <= i < Start(n) ==> i in n.discarded
  {
  }

  /** Removing a batch for good: each of its events is either given up or already in a log. */
  lemma LeaveKeeps(s: System, n: System, count: nat)
    requires Inv(s) && s.sink.Some? && count <= |Buffered(s)|
    requires n == Without(s, count).(discarded := n.discarded) && s.discarded <= n.discarded
    requires forall i :: i in n.discarded ==> i < Start(s) + count
    requires forall i :: Start(s) <= i < Start(s) + count ==> i in n.discarded || Settled(s.feeds, s.pushed[i])
    requires forall f :: OnlyFeed(s, f) && n.discarded == {} ==> Start(s) + count <= |LogOf(s, f).applied|
    ensures Inv(n)
  {
    hide Tapping.Accounted, LogSound, Genuine, Settled;
    assert Buffered(n) == s.pushed[Start(n)..];
    FrontMoves(s, n);
    forall f | OnlyFeed(n, f) && n.discarded == {} ensures Lossless(LogOf(n, f), n.pushed, Start(n)) {
      assert OnlyFeed(s, f);
      assert s.discarded == {};
      assert Lossless(LogOf(s, f), s.pushed, Start(s));
    }
  }

  lemma GiveUpKeeps(s: System, count: nat)
    requires Inv(s) && s.sink.Some? && count <= |Buffered(s)|
    ensures Inv(GiveUp(s, count))
  {
    hide Tapping.Accounted, LogSound, Genuine, Lossless, Settled;
    var n := GiveUp(s, count);
    if count == 0 {
      assert n.discarded == s.discarded;
      assert Buffered(s)[0..] == Buffered(s);
      SameBuffer(s, n);
    } else {
      assert Start(s) in n.discarded;
      LeaveKeeps(s, n, count);
    }
  }

  // ---- the network's steps ----

  lemma PostKeeps(s: System, p: Post)
    requires Inv(s) && Genuine(p, s.pushed, Start(s))
    ensures Inv(s.(posts := s.posts + {p}))
  {
    hide Tapping.Accounted, LogSound, Genuine, Lossless, Settled;
    var n := s.(posts := s.posts + {p});
    forall f | OnlyFeed(n, f) && n.discarded == {} ensures Lossless(LogOf(n, f), n.pushed, Start(n)) {
      assert OnlyFeed(s, f);
    }
  }

  lemma DeliverKeeps(s: System, p: Post)
    requires Inv(s) && p in s.posts
    ensures Inv(s.(feeds := DeliverTo(s.feeds, p.feed, p.events)))
  {
    hide Tapping.Accounted, LogSound, Genuine, Settled, Lossless, StoreInLog;
    var n := s.(feeds := DeliverTo(s.feeds, p.feed, p.events));
    DeliverLogs(s, p);
    forall f | OnlyFeed(n, f) && n.discarded == {} ensures Lossless(LogOf(n, f), n.pushed, Start(n)) {
      OnlyFeedBefore(s, n, f);
      DeliverLossless(s, p, f);
    }
  }

  lemma DeliverLogs(s: System, p: Post)
    requires Increasing(s.pushed) && Posts(s) && Logs(s) && Conserved(s) && p in s.posts && BufferIsSuffix(s)
    ensures
      var n := s.(feeds := DeliverTo(s.feeds, p.feed, p.events));
      && Logs(n) && Conserved(n)
      && forall i :: Start(s) <= i < p.offset + |p.events| ==> Settled(n.feeds, s.pushed[i])
  {
    hide StoreInLog, Genuine, LogSound, Settled, DeliverTo;
    var n := s.(feeds := DeliverTo(s.feeds, p.feed, p.events));
    assert Genuine(p, s.pushed, Start(s));
    DeliverToFeed(s, p);
    LogsOnlyGrow(s, p);
  }

  lemma DeliverToFeed(s: System, p: Post)
    requires Increasing(s.pushed) && Genuine(p, s.pushed, Start(s)) && Logs(s)
    ensures Logs(s.(feeds := DeliverTo(s.feeds, p.feed, p.events)))
    ensures forall e :: e in LogOf(s, p.feed).applied ==> e in StoreInLog(LogOf(s, p.feed), p.events).applied
    ensures forall i :: Start(s) <= i < p.offset + |p.events| ==>
        Settled(DeliverTo(s.feeds, p.feed, p.events), s.pushed[i])
  {
    hide StoreInLog, Batching.FirstSyncIsWhole, Increasing;
    var feeds := DeliverTo(s.feeds, p.feed, p.events);
    var log := LogOf(s, p.feed);
    assert LogSound(log, s.pushed, Start(s)) by { EmptyLogSound(s.pushed, Start(s)); }
    hide LogSound;
    DeliverySound(log, s.pushed, Start(s), p);
    assert p.feed in feeds && feeds[p.feed] == StoreInLog(log, p.events);
    forall i | Start(s) <= i < p.offset + |p.events| ensures Settled(feeds, s.pushed[i]) {
      assert p.events[i - p.offset] == s.pushed[i];
    }
  }

  lemma EmptyLogSound(pushed: seq<Event>, start: int)
    ensures LogSound(NO_LOG, pushed, start)
  {
  }

  lemma LogsOnlyGrow(s: System, p: Post)
    requires forall e :: e in LogOf(s, p.feed).applied ==> e in StoreInLog(LogOf(s, p.feed), p.events).applied
    ensures forall e :: Settled(s.feeds, e) ==> Settled(DeliverTo(s.feeds, p.feed, p.events), e)
  {
    hide StoreInLog;
    var after := DeliverTo(s.feeds, p.feed, p.events);
    forall e | Settled(s.feeds, e) ensures Settled(after, e) {
      var f :| f in s.feeds && e in s.feeds[f].applied;
      if f == p.feed { assert e in LogOf(s, p.feed).applied; }
      assert f in after && e in after[f].applied;
    }
  }

  lemma DeliverLossless(s: System, p: Post, f: nat)
    requires Increasing(s.pushed) && Posts(s) && Logs(s) && LosslessWhenAlone(s) && p in s.posts && BufferIsSuffix(s)
    requires OnlyFeed(s, f) && s.discarded == {}
    ensures
      var n := s.(feeds := DeliverTo(s.feeds, p.feed, p.events));
      Lossless(LogOf(n, f), n.pushed, Start(n)) && p.offset + |p.events| <= |LogOf(n, f).applied|
  {
    hide StoreInLog, Batching.FirstSyncIsWhole;
    var log := LogOf(s, f);
    assert p.feed == f && Genuine(p, s.pushed, Start(s));
    assert LogSound(log, s.pushed, Start(s)) && Lossless(log, s.pushed, Start(s));
    DeliveryLossless(log, s.pushed, Start(s), p);
  }

  lemma BatchIsGenuine(s: System)
    requires BufferIsSuffix(s) && Increasing(s.pushed) && Batching.ReadyCount(Buffered(s)).Some?
    ensures
      var count := Batching.ReadyCount(Buffered(s)).value;
      count <= |Buffered(s)| && Genuine(Post(0, Start(s), Buffered(s)[..count]), s.pushed, Start(s))
  {
    var pending := Buffered(s);
    Batching.BatchIsBounded(pending);
    Batching.BatchKeepsItsSync(pending);
    var count := Batching.ReadyCount(pending).value;
    assert pending[..count] == s.pushed[Start(s)..Start(s) + count];
  }

  lemma FlushKeeps(s: System, reply: Reply)
    requires Inv(s) && Enabled(s, FlushPost(reply))
    ensures Inv(Next(s, FlushPost(reply)))
  {
    hide Tapping.Accounted, LogSound, Genuine, Lossless, Settled, Ordered, StoreInLog, Batching.ReadyCount;
    BatchIsGenuine(s) by { assert Increasing(s.pushed) by { InvOrder(s); } }
    var count := Batching.ReadyCount(Buffered(s)).value;
    var p := Post(s.identity.value, Start(s), Buffered(s)[..count]);
    assert Genuine(p, s.pushed, Start(s)) by { FeedDoesNotMatter(s, p); }
    PostKeeps(s, p);
    var sent := s.(posts := s.posts + {p});
    match reply
    case Accepted =>
      AcceptedKeeps(sent, p, count);
    case Retryable =>
    case Refused => GiveUpKeeps(sent, count);
    case Unauthorized => IdentityDoesNotMatter(sent, None);
  }

  lemma AcceptedKeeps(s: System, p: Post, count: nat)
    requires Inv(s) && s.sink.Some? && p in s.posts && p.offset == Start(s) && |p.events| == count <= |Buffered(s)|
    ensures Inv(Without(s, count).(feeds := DeliverTo(s.feeds, p.feed, p.events)))
  {
    hide Tapping.Accounted, LogSound, Genuine, Lossless, Settled, StoreInLog;
    DeliverKeeps(s, p);
    DeliverLogs(s, p);
    var stored := s.(feeds := DeliverTo(s.feeds, p.feed, p.events));
    var n := Without(stored, count);
    forall f | OnlyFeed(stored, f) && n.discarded == {} ensures Start(s) + count <= |LogOf(stored, f).applied| {
      OnlyFeedBefore(s, stored, f);
      DeliverLossless(s, p, f);
    }
    LeaveKeeps(stored, n, count);
  }

  lemma OnlyFeedBefore(s: System, n: System, f: nat)
    requires OnlyFeed(n, f) && n.posts == s.posts && s.feeds.Keys <= n.feeds.Keys
    ensures OnlyFeed(s, f)
  {
  }

  lemma InvOrder(s: System)
    requires Inv(s)
    ensures Ordered(s)
  {
  }

  lemma FeedDoesNotMatter(s: System, p: Post)
    requires Genuine(Post(0, p.offset, p.events), s.pushed, Start(s))
    ensures Genuine(p, s.pushed, Start(s))
  {
  }

  lemma IdentityDoesNotMatter(s: System, identity: Option<nat>)
    requires Inv(s)
    ensures Inv(s.(identity := identity))
  {
    hide Tapping.Accounted, LogSound, Genuine, Lossless, Settled;
    SameBuffer(s, s.(identity := identity));
  }

  /** Every step of tap, worker, network and server keeps the invariant. */
  lemma StepKeeps(s: System, a: Action)
    requires Inv(s) && Enabled(s, a) && 0 <= Start(s)
    ensures Inv(Next(s, a))
  {
    hide Inv, GiveUp, Hand, Enqueue, Batching.ReadyCount, DeliverTo;
    match a
    case Announce(_, _, _, _) => TapSteps(s, a);
    case Emit(_, _, _, _) => TapSteps(s, a);
    case Receive => ReceiveKeeps(s);
    case Prune => PruneKeeps(s);
    case FlushDisabled =>
      Batching.BatchIsBounded(s.sink.value.pending);
      GiveUpKeeps(s, Batching.ReadyCount(s.sink.value.pending).value);
    case FlushPost(reply) => FlushKeeps(s, reply);
    case ShutdownDrain => GiveUpKeeps(s, |s.sink.value.pending|);
    case Deliver(post) => DeliverKeeps(s, post);
    case Register(feed) => IdentityDoesNotMatter(s, Some(feed));
  }

  lemma PruneKeeps(s: System)
    requires Inv(s) && Enabled(s, Prune)
    ensures Inv(s.(sink := None))
  {
    hide Tapping.Accounted, LogSound, Genuine, Lossless, Settled;
    SameBuffer(s, s.(sink := None));
  }

  lemma EmptyInv(s: System)
    requires |s.pushed| == 0 && |s.channel| == 0 && s.sink.None? && s.posts == {} && s.feeds == map[]
        && s.discarded == {}
    requires Tapping.Accounted(s.tap) && s.tap.vanished == 0
    ensures Inv(s)
  {
  }

  lemma {:induction false} RunKeeps(s: System, actions: seq<Action>, t: System)
    requires Inv(s) && Runs(s, actions, t)
    ensures Inv(t)
    decreases |actions|
  {
    hide Inv, Next, Enabled;
    if actions != [] {
      StepKeeps(s, actions[0]);
      RunKeeps(Next(s, actions[0]), actions[1..], t);
    }
  }

  ghost predicate StepReady(s: System, a: Action) { Inv(s) && Enabled(s, a) && 0 <= Start(s) }

  lemma StartsInvariant(s: System)
    requires Initial(s)
    ensures Inv(s)
  {
    hide Inv;
    Tapping.FreshIsAccounted();
    EmptyInv(s);
  }

  lemma Reached(s: System, actions: seq<Action>, t: System)
    requires Initial(s) && Runs(s, actions, t)
    ensures Inv(t)
  {
    hide Runs, Inv;
    StartsInvariant(s);
    RunKeeps(s, actions, t);
  }

  // ---- what it means ----

  /** Exactly-once effect: in every run, each feed applies events in strictly increasing order, so each at most
      once, and everything it applied was buffered by the worker. */
  lemma AppliedAtMostOnce(s: System, actions: seq<Action>, t: System)
    requires Initial(s) && Runs(s, actions, t)
    ensures forall f :: f in t.feeds ==> Increasing(t.feeds[f].applied)
                                         && forall i :: 0 <= i < |t.feeds[f].applied|
                                             ==> t.feeds[f].applied[i] in t.pushed
  {
    hide Runs;
    Reached(s, actions, t);
    forall f | f in t.feeds ensures LogSound(t.feeds[f], t.pushed, Start(t)) {
    }
  }

  /** The filter never skips an event that is still to be sent: what a feed has passed over in the buffer, it
      has applied. */
  lemma BufferedIsNeverSkipped(s: System, actions: seq<Action>, t: System)
    requires Initial(s) && Runs(s, actions, t)
    ensures forall f, e :: f in t.feeds && e in Buffered(t) && e.number <= t.feeds[f].lastSeq ==>
        e in t.feeds[f].applied
  {
    hide Runs;
    Reached(s, actions, t);
    forall f, e | f in t.feeds && e in Buffered(t) && e.number <= t.feeds[f].lastSeq ensures e in t.feeds[f].applied {
      assert LogSound(t.feeds[f], t.pushed, Start(t));
      var i :| 0 <= i < |Buffered(t)| && Buffered(t)[i] == e;
      assert t.pushed[Start(t) + i] == e;
    }
  }

  /** Conservation: an event that entered the batcher is still buffered, was applied by a feed, or was given up
      (overflow, refusal, sharing switched off, shutdown). */
  lemma NothingIsLostSilently(s: System, actions: seq<Action>, t: System)
    requires Initial(s) && Runs(s, actions, t)
    ensures forall i: nat :: i < |t.pushed| ==>
              t.pushed[i] in Buffered(t) || i in t.discarded || Settled(t.feeds, t.pushed[i])
  {
    hide Runs;
    Reached(s, actions, t);
    forall i: nat | i < |t.pushed| && i >= Start(t) ensures t.pushed[i] in Buffered(t) {
      assert Buffered(t)[i - Start(t)] == t.pushed[i];
    }
  }

  /** With nothing given up and one feed, the log is exactly what entered the batcher, short at most of events
      still buffered. */
  lemma LosslessRunAppliesEverything(s: System, actions: seq<Action>, t: System, feed: nat)
    requires Initial(s) && Runs(s, actions, t) && t.discarded == {} && OnlyFeed(t, feed)
    ensures LogOf(t, feed).applied <= t.pushed
    ensures Buffered(t) == [] ==> LogOf(t, feed).applied == t.pushed
  {
    hide Runs;
    Reached(s, actions, t);
    assert Lossless(LogOf(t, feed), t.pushed, Start(t));
  }

  /** Every request ever sent passes the server's validation and holds its first sync whole; the buffer stays
      within its bound and remains the tail of history. */
  lemma EveryRequestIsAcceptable(s: System, actions: seq<Action>, t: System)
    requires Initial(s) && Runs(s, actions, t)
    ensures forall p :: p in t.posts ==> Acceptable(p.events) && Batching.FirstSyncIsWhole(p.events)
    ensures |Buffered(t)| <= Batching.MAX_PENDING_EVENTS && |Buffered(t)| <= |t.pushed|
        && Buffered(t) == t.pushed[|t.pushed| - |Buffered(t)|..]
    ensures Tapping.Accounted(t.tap) && Increasing(t.pushed)
  {
    hide Runs;
    Reached(s, actions, t);
    forall p | p in t.posts ensures Genuine(p, t.pushed, Start(t)) {
    }
  }

  /** The worker has forgotten the session and no announcement is on its way. */
  ghost predicate Deaf(s: System) {
    s.sink.None? && s.tap.announced && forall i :: 0 <= i < |s.channel| ==> s.channel[i].Carried?
  }

  /** Once an ended session has drained and been pruned, nothing the tap emits later (sharing switched back on
      re-uses the session) is ever buffered, whatever happens. */
  lemma {:induction false} PrunedSessionStaysDeaf(s: System, actions: seq<Action>, t: System)
    requires Deaf(s) && Runs(s, actions, t)
    ensures Deaf(t) && t.pushed == s.pushed
    decreases |actions|
  {
    if actions != [] {
      DeafStep(s, actions[0]);
      PrunedSessionStaysDeaf(Next(s, actions[0]), actions[1..], t);
    }
  }

  lemma DeafStep(s: System, a: Action)
    requires Deaf(s) && Enabled(s, a) && 0 <= Start(s)
    ensures Deaf(Next(s, a)) && Next(s, a).pushed == s.pushed
  {
  }

  /** The session is announced at most once: at most one announcement is on its way, and none once the worker
      knows the session. */
  ghost predicate AnnouncedOnce(s: System) {
    && (!s.tap.announced ==> s.sink.None? && forall i :: 0 <= i < |s.channel| ==> s.channel[i].Carried?)
    && (s.sink.Some? ==> forall i :: 0 <= i < |s.channel| ==> s.channel[i].Carried?)
    && (forall i, j :: 0 <= i < j < |s.channel| && s.channel[i].Announcement? ==> s.channel[j].Carried?)
  }

  lemma AnnouncedOnceStep(s: System, a: Action)
    requires AnnouncedOnce(s) && Enabled(s, a) && 0 <= Start(s)
    ensures AnnouncedOnce(Next(s, a))
  {
    hide Tapping.Offer, Batching.ReadyCount, DeliverTo, Indices;
  }

  lemma {:induction false} AnnouncedOnceRun(s: System, actions: seq<Action>, t: System)
    requires AnnouncedOnce(s) && Runs(s, actions, t)
    ensures AnnouncedOnce(t)
    decreases |actions|
  {
    hide AnnouncedOnce, Next, Enabled;
    if actions != [] {
      AnnouncedOnceStep(s, actions[0]);
      AnnouncedOnceRun(Next(s, actions[0]), actions[1..], t);
    }
  }

  /** So pruning is final: in every run, no event received after it enters the buffer. */
  lemma PruningIsFinal(s: System, before: seq<Action>, m: System, after: seq<Action>, t: System)
    requires Initial(s) && Runs(s, before, m) && Enabled(m, Prune) && 0 <= Start(m)
    requires Runs(Next(m, Prune), after, t)
    ensures t.pushed == m.pushed && Buffered(t) == []
  {
    hide Runs;
    AnnouncedOnceRun(s, before, m);
    PrunedSessionStaysDeaf(Next(m, Prune), after, t);
  }
}
