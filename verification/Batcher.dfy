/** The uplink worker's outbound buffer (app/src/uplink/model.rs, `Batcher`). */
module Batching {
  import opened Common
  import opened Wire

  const MAX_BATCH_EVENTS := 64
  const FLUSH_AFTER := 500
  const MAX_PENDING_EVENTS := 4096

  predicate StartsSync(e: Event) { e.kind.SyncStarted? }

  predicate EndsSync(e: Event) { e.kind.SessionSynced? }

  /** The index of the first event that satisfies `test`. */
  function Position(events: seq<Event>, test: Event -> bool): (p: Option<nat>)
    ensures p.Some? ==> p.value < |events| && test(events[p.value]) && forall i :: 0 <= i < p.value ==> !test(events[i])
    ensures p.None? ==> forall i :: 0 <= i < |events| ==> !test(events[i])
  {
    if events == [] then None
    else if test(events[0]) then Some(0)
    else
      var rest := Position(events[1..], test);
      assert forall i :: 1 <= i < |events| ==> events[i] == events[1..][i - 1];
      if rest.Some? then Some(rest.value + 1) else None
  }

  /** How many events the next batch holds, or nothing when the buffer must wait for its sync to close. */
  function ReadyCount(pending: seq<Event>): Option<nat> {
    var limit := Min(|pending|, MAX_BATCH_EVENTS);
    var start := Position(pending[..limit], StartsSync);
    if start.None? then (if limit > 0 then Some(limit) else None)
    else
      var offset := Position(pending[start.value..], EndsSync);
      if offset.Some? && start.value + offset.value < limit then Some(limit)
      else if start.value > 0 then Some(start.value)
      else None
  }

  predicate Due(pending: seq<Event>, firstBuffered: Option<int>, now: int) {
    || |pending| >= MAX_BATCH_EVENTS
    || (firstBuffered.Some? && now >= firstBuffered.value + FLUSH_AFTER)
    || Position(pending, EndsSync).Some?
  }

  /** The first sync that begins in the batch also ends in it. */
  ghost predicate FirstSyncIsWhole(batch: seq<Event>) {
    forall i :: 0 <= i < |batch| && StartsSync(batch[i]) && (forall k :: 0 <= k < i ==> !StartsSync(batch[k]))
                ==> exists j :: i < j < |batch| && EndsSync(batch[j])
  }

  lemma BatchIsBounded(pending: seq<Event>)
    ensures ReadyCount(pending).Some? ==> 1 <= ReadyCount(pending).value <= Min(|pending|, MAX_BATCH_EVENTS)
  {
  }

  lemma BatchKeepsItsSync(pending: seq<Event>)
    ensures ReadyCount(pending).Some? ==>
        && ReadyCount(pending).value <= |pending|
        && FirstSyncIsWhole(pending[..ReadyCount(pending).value])
  {
  }

  /** A non-empty buffer is withheld exactly when it begins with a sync that does not close within a batch. */
  lemma WithheldIff(pending: seq<Event>)
    requires pending != []
    ensures ReadyCount(pending).None?
            <==>
                && StartsSync(pending[0])
                && forall i :: 0 <= i < Min(|pending|, MAX_BATCH_EVENTS) ==> !EndsSync(pending[i])
  {
  }

  /** A sync that lists `n` rosters. */
  ghost predicate IsBlock(events: seq<Event>, n: nat) {
    && |events| == n + 2 && StartsSync(events[0]) && EndsSync(events[n + 1])
    && forall i :: 1 <= i <= n ==> !StartsSync(events[i]) && !EndsSync(events[i])
  }

  /** A sync at the head of the buffer, whatever follows it, is withheld if and only if it lists more than 62
      rosters. */
  lemma LongSyncIsWithheld(block: seq<Event>, more: seq<Event>, n: nat)
    requires IsBlock(block, n)
    ensures ReadyCount(block + more).None? <==> n > 62
  {
    hide ReadyCount;
    var pending := block + more;
    WithheldIff(pending);
    assert EndsSync(pending[n + 1]);
    if n > 62 {
      forall i | 0 <= i < Min(|pending|, MAX_BATCH_EVENTS) ensures !EndsSync(pending[i]) {
        assert pending[i] == block[i];
      }
    }
  }

  /** Once 64 events of it are buffered no further event releases it; what does is overflow, which drops the event
      that began the sync. */
  lemma WithheldUntilOverflow(block: seq<Event>, more: seq<Event>, n: nat)
    requires IsBlock(block, n) && n > 62
    ensures ReadyCount((block + more)[1..]) == Some(MAX_BATCH_EVENTS)
    ensures forall k: nat :: MAX_BATCH_EVENTS <= k <= |block + more| ==> ReadyCount((block + more)[..k]).None?
  {
    var pending := block + more;
    var rest := pending[1..];
    forall i | 0 <= i < MAX_BATCH_EVENTS && i < n ensures !StartsSync(rest[i]) && !EndsSync(rest[i]) {
      assert rest[i] == block[i + 1];
    }
    forall k: nat | MAX_BATCH_EVENTS <= k <= |pending| ensures ReadyCount(pending[..k]).None? {
      hide ReadyCount;
      WithheldIff(pending[..k]);
      forall i | 0 <= i < MAX_BATCH_EVENTS ensures !EndsSync(pending[..k][i]) { assert pending[..k][i] == block[i]; }
    }
  }

  class Batcher {
    var pending: seq<Event>
    var firstBuffered: Option<int>

    constructor ()
      ensures Valid() && pending == []
    {
      pending, firstBuffered := [], None;
    }

    ghost predicate Valid()
      reads this
    {
      firstBuffered.Some? <==> pending != []
    }

    /** Buffers an event, dropping the oldest when the buffer is full. */
    method Push(event: Event, now: int) returns (dropped: nat)
      requires Valid()
      modifies this
      ensures Valid()
      ensures dropped == if old(|pending|) >= MAX_PENDING_EVENTS then old(|pending|) - MAX_PENDING_EVENTS + 1 else 0
      ensures pending == old(pending)[dropped..] + [event]
      ensures old(pending) != [] ==> firstBuffered == old(firstBuffered)
      ensures old(pending) == [] ==> firstBuffered == Some(now)
    {
      dropped := 0;
      while |pending| >= MAX_PENDING_EVENTS
        invariant firstBuffered == old(firstBuffered)
        invariant dropped <= old(|pending|) && pending == old(pending)[dropped..]
        invariant dropped > 0 ==> |pending| >= MAX_PENDING_EVENTS - 1
        decreases |pending|
      {
        pending := pending[1..];
        dropped := dropped + 1;
      }
      if pending == [] {
        firstBuffered := Some(now);
      }
      pending := pending + [event];
    }

    /** Takes a batch if one is due; `clock` is the time the source reads while cutting it. */
    method TakeBatch(now: int, clock: int) returns (batch: Option<seq<Event>>)
      requires Valid()
      modifies this
      ensures Valid()
      ensures batch.Some? <==> Due(old(pending), old(firstBuffered), now) && ReadyCount(old(pending)).Some?
      ensures batch.None? ==> pending == old(pending) && firstBuffered == old(firstBuffered)
      ensures batch.Some? ==> Some(|batch.value|) == ReadyCount(old(pending)) && batch.value + pending == old(pending)
    {
      if !Due(pending, firstBuffered, now) {
        return None;
      }
      var count := ReadyCount(pending);
      if count.None? {
        return None;
      }
      BatchIsBounded(pending);
      var taken := TakeCount(count.value, clock);
      return Some(taken);
    }

    /** Takes what is ready at once, as at shutdown. */
    method TakeNow(clock: int) returns (batch: seq<Event>)
      requires Valid()
      modifies this
      ensures Valid() && batch + pending == old(pending)
      ensures |batch| == (if ReadyCount(old(pending)).Some? then ReadyCount(old(pending)).value else 0)
    {
      BatchIsBounded(pending);
      var count := ReadyCount(pending);
      batch := TakeCount(if count.Some? then count.value else 0, clock);
    }

    method DiscardBatch(clock: int) returns (batch: seq<Event>)
      requires Valid()
      modifies this
      ensures Valid() && batch + pending == old(pending) && |batch| == Min(old(|pending|), MAX_BATCH_EVENTS)
    {
      batch := TakeCount(Min(|pending|, MAX_BATCH_EVENTS), clock);
    }

    method TakeCount(count: nat, clock: int) returns (batch: seq<Event>)
      requires count <= |pending|
      modifies this
      ensures Valid() && |batch| == count && batch + pending == old(pending)
    {
      batch := pending[..count];
      pending := pending[count..];
      firstBuffered := if pending == [] then None else Some(clock);
    }

    /** Puts a failed batch back at the front, oldest first. */
    method Restore(batch: seq<Event>, clock: int)
      requires Valid()
      modifies this
      ensures Valid() && pending == batch + old(pending)
      ensures old(firstBuffered).Some? ==> firstBuffered == old(firstBuffered)
    {
      var i := |batch|;
      while i > 0
        invariant firstBuffered == old(firstBuffered)
        invariant 0 <= i <= |batch| && pending == batch[i..] + old(pending)
      {
        i := i - 1;
        pending := [batch[i]] + pending;
      }
      if firstBuffered.None? && pending != [] {
        firstBuffered := Some(clock);
      }
    }
  }

  /** Taking a batch and restoring it leaves the buffer as it was. */
  method TakeThenRestore(b: Batcher, now: int, clock: int) returns (batch: Option<seq<Event>>)
    requires b.Valid()
    modifies b
    ensures b.Valid() && b.pending == old(b.pending)
  {
    batch := b.TakeBatch(now, clock);
    if batch.Some? {
      b.Restore(batch.value, clock);
    }
  }
}
