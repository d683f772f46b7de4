/** Pruning does not change what a reader of a surviving feed sees. */
module PruningProperties {
  import opened Common
  import opened Pruning
  import Store

  ghost predicate Survives(db: Database, k: SessionKey, cutoff: int, tie: SessionKey -> int)
    requires TieBreak(tie)
  {
    k in db.sessions && k.feed in db.feeds && db.feeds[k.feed] >= cutoff && Retained(db, k, cutoff, tie)
  }

  lemma ExpiryIgnoresMessages(db: Database, messages: map<nat, Message>, k: SessionKey, cutoff: int,
                              tie: SessionKey -> int)
    requires TieBreak(tie) && k in db.sessions
    ensures Retained(db.(messages := messages), k, cutoff, tie) == Retained(db, k, cutoff, tie)
  {
    var other := db.(messages := messages);
    assert SnapshotCandidates(other, k.feed, None, tie) == SnapshotCandidates(db, k.feed, None, tie);
    assert LatestCandidates(other, k.feed, None, tie) == LatestCandidates(db, k.feed, None, tie);
  }

  /** Which rows are left, table by table, and that a row left is left as it was. */
  lemma SessionsLeft(db: Database, cutoff: int, tie: SessionKey -> int)
    requires TieBreak(tie)
    ensures
      var after := Pruned(db, cutoff, tie);
      forall k :: k in after.sessions <==> Survives(db, k, cutoff, tie)
    ensures
      var after := Pruned(db, cutoff, tie);
      forall k :: k in after.sessions ==> after.sessions[k] == db.sessions[k]
  {
    hide Retained;
    forall k | k in db.sessions
      ensures Retained(db.(messages := RecentMessages(db, cutoff)), k, cutoff, tie) == Retained(db, k, cutoff, tie)
    {
      ExpiryIgnoresMessages(db, RecentMessages(db, cutoff), k, cutoff, tie);
    }
  }

  lemma ChannelsLeft(db: Database, cutoff: int, tie: SessionKey -> int)
    requires TieBreak(tie)
    ensures
      var after := Pruned(db, cutoff, tie);
      && (forall c :: c in after.channels <==>
          && c in db.channels
          && Survives(db, SessionKey(c.feed, c.session), cutoff, tie))
      && (forall c :: c in after.channels ==> after.channels[c] == db.channels[c])
  {
    hide Retained;
    SessionsLeft(db, cutoff, tie);
  }

  lemma RosterLeft(db: Database, cutoff: int, tie: SessionKey -> int)
    requires TieBreak(tie)
    ensures
      var after := Pruned(db, cutoff, tie);
      && (forall r :: r in after.roster <==> r in db.roster && Survives(db, SessionKey(r.feed, r.session), cutoff, tie))
      && (forall r :: r in after.roster ==> after.roster[r] == db.roster[r])
  {
    hide Retained;
    SessionsLeft(db, cutoff, tie);
  }

  /** Afterwards every channel and roster row has its session, and every session its feed. */
  lemma NoOrphans(db: Database, cutoff: int, tie: SessionKey -> int)
    requires TieBreak(tie)
    ensures
      var after := Pruned(db, cutoff, tie);
      && (forall c :: c in after.channels ==> SessionKey(c.feed, c.session) in after.sessions)
      && (forall r :: r in after.roster ==> SessionKey(r.feed, r.session) in after.sessions)
      && (forall k :: k in after.sessions ==> k.feed in after.feeds)
  {
  }

  lemma FeedsLeft(db: Database, cutoff: int, tie: SessionKey -> int)
    requires TieBreak(tie)
    ensures Pruned(db, cutoff, tie).feeds == RecentFeeds(db, cutoff)
    ensures Pruned(db, cutoff, tie).messages == RecentMessages(db, cutoff)
  {
  }

  // ---- the rows a query chooses from ----

  lemma OpenChannelsStay(db: Database, k: SessionKey, cutoff: int, tie: SessionKey -> int)
    requires TieBreak(tie) && Survives(db, k, cutoff, tie)
    ensures HasOpenChannel(Pruned(db, cutoff, tie), k) == HasOpenChannel(db, k)
  {
    hide Pruned, Retained;
    var after := Pruned(db, cutoff, tie);
    ChannelsLeft(db, cutoff, tie);
    if HasOpenChannel(db, k) {
      var c :| c in db.channels && c.feed == k.feed && c.session == k.id && db.channels[c].closedAt.None?;
      assert SessionKey(c.feed, c.session) == k;
      assert c in after.channels;
    }
    if HasOpenChannel(after, k) {
      var c :| c in after.channels && c.feed == k.feed && c.session == k.id && after.channels[c].closedAt.None?;
      assert c in db.channels;
    }
  }

  lemma LatestCandidatesLeft(db: Database, feed: string, product: Option<string>, cutoff: int, tie: SessionKey -> int)
    requires TieBreak(tie)
    ensures
      var before, fewer := LatestCandidates(db, feed, product, tie),
          LatestCandidates(Pruned(db, cutoff, tie), feed, product, tie);
      && (forall k :: k in fewer <==> k in before && Survives(db, k, cutoff, tie))
      && (forall k :: k in fewer ==> fewer[k] == before[k])
  {
    hide Pruned, Retained;
    SessionsLeft(db, cutoff, tie);
  }

  lemma SnapshotCandidatesLeft(db: Database, feed: string, product: Option<string>, cutoff: int, tie: SessionKey -> int)
    requires TieBreak(tie)
    ensures
      var before, fewer := SnapshotCandidates(db, feed, product, tie),
          SnapshotCandidates(Pruned(db, cutoff, tie), feed, product, tie);
      && (forall k :: k in fewer <==> k in before && Survives(db, k, cutoff, tie))
      && (forall k :: k in fewer ==> fewer[k] == before[k])
  {
    hide Pruned, Retained, HasOpenChannel;
    SessionsLeft(db, cutoff, tie);
    forall k | Survives(db, k, cutoff, tie)
      ensures HasOpenChannel(Pruned(db, cutoff, tie), k) == HasOpenChannel(db, k)
    {
      OpenChannelsStay(db, k, cutoff, tie);
    }
  }

  // ---- one product, or all of them ----

  /** In a surviving feed a query finds the session it found before, exactly when that session is retained. */
  lemma LatestUnchangedIff(db: Database, feed: string, product: Option<string>, cutoff: int, tie: SessionKey -> int)
    requires TieBreak(tie) && feed in db.feeds && db.feeds[feed] >= cutoff
    ensures
      var was := LatestSession(db, feed, product, tie);
      LatestSession(Pruned(db, cutoff, tie), feed, product, tie) == was <==>
          was.None? || Retained(db, was.value, cutoff, tie)
  {
    hide Pruned, Retained;
    LatestCandidatesLeft(db, feed, product, cutoff, tie);
    WinnerAmongFewer(LatestCandidates(db, feed, product, tie),
                     LatestCandidates(Pruned(db, cutoff, tie), feed, product, tie));
  }

  lemma SnapshotUnchangedIff(db: Database, feed: string, product: Option<string>, cutoff: int, tie: SessionKey -> int)
    requires TieBreak(tie) && feed in db.feeds && db.feeds[feed] >= cutoff
    ensures
      var was := SnapshotSession(db, feed, product, tie);
      SnapshotSession(Pruned(db, cutoff, tie), feed, product, tie) == was <==>
          was.None? || Retained(db, was.value, cutoff, tie)
  {
    hide Pruned, Retained;
    SnapshotCandidatesLeft(db, feed, product, cutoff, tie);
    WinnerAmongFewer(SnapshotCandidates(db, feed, product, tie),
                     SnapshotCandidates(Pruned(db, cutoff, tie), feed, product, tie));
  }

  lemma RosterOfStays(db: Database, k: SessionKey, channel: string, cutoff: int, tie: SessionKey -> int)
    requires TieBreak(tie) && Survives(db, k, cutoff, tie)
    ensures RosterOf(Pruned(db, cutoff, tie), k, channel) == RosterOf(db, k, channel)
  {
    hide Pruned, Retained;
    RosterLeft(db, cutoff, tie);
    forall r | r in db.roster && r.feed == k.feed && r.session == k.id ensures r in Pruned(db, cutoff, tie).roster {
      assert SessionKey(r.feed, r.session) == k;
    }
  }

  lemma OpenChannelRowsStay(db: Database, k: SessionKey, cutoff: int, tie: SessionKey -> int)
    requires TieBreak(tie) && Survives(db, k, cutoff, tie)
    ensures OpenChannels(Pruned(db, cutoff, tie), k) == OpenChannels(db, k)
  {
    hide Pruned, Retained, RosterOf;
    ChannelsLeft(db, cutoff, tie);
    forall c | c in db.channels && c.feed == k.feed && c.session == k.id ensures c in Pruned(db, cutoff, tie).channels {
      assert SessionKey(c.feed, c.session) == k;
    }
    forall c: ChannelKey ensures RosterOf(Pruned(db, cutoff, tie), k, c.key) == RosterOf(db, k, c.key) {
      RosterOfStays(db, k, c.key, cutoff, tie);
    }
  }

  /** The channel list changes exactly when the session it was read from is not retained. */
  lemma ChannelRowsUnchangedIff(db: Database, feed: string, product: Option<string>, cutoff: int,
                                tie: SessionKey -> int)
    requires TieBreak(tie) && feed in db.feeds && db.feeds[feed] >= cutoff
    ensures
      var was := SnapshotSession(db, feed, product, tie);
      ChannelRows(Pruned(db, cutoff, tie), feed, product, tie) == ChannelRows(db, feed, product, tie)
      <==> was.None? || Retained(db, was.value, cutoff, tie)
  {
    hide Pruned, Retained;
    var after := Pruned(db, cutoff, tie);
    var was, now := SnapshotSession(db, feed, product, tie), SnapshotSession(after, feed, product, tie);
    SnapshotUnchangedIff(db, feed, product, cutoff, tie);
    if was.Some? {
      if Retained(db, was.value, cutoff, tie) {
        OpenChannelRowsStay(db, was.value, cutoff, tie);
      } else {
        var c :| c in db.channels && c.feed == feed && c.session == was.value.id && db.channels[c].closedAt.None?;
        assert c in OpenChannels(db, was.value);
        assert now.Some? ==> c !in OpenChannels(after, now.value);
        assert c !in ChannelRows(after, feed, product, tie);
      }
    }
  }

  /** The snapshot session among those retained: what the query will find afterwards. */
  function SuccessorSession(db: Database, feed: string, product: Option<string>, cutoff: int,
                            tie: SessionKey -> int): Option<SessionKey>
    requires TieBreak(tie)
  {
    var candidates := SnapshotCandidates(db, feed, product, tie);
    First(map k | k in candidates && k in db.sessions && Retained(db, k, cutoff, tie) :: candidates[k])
  }

  lemma SuccessorIsFound(db: Database, feed: string, product: Option<string>, cutoff: int, tie: SessionKey -> int)
    requires TieBreak(tie) && feed in db.feeds && db.feeds[feed] >= cutoff
    ensures SnapshotSession(Pruned(db, cutoff, tie), feed, product, tie)
        == SuccessorSession(db, feed, product, cutoff, tie)
    ensures
      var next := SuccessorSession(db, feed, product, cutoff, tie);
      next.Some? ==> Survives(db, next.value, cutoff, tie) && next.value.feed == feed
  {
    hide Pruned, Retained, IsSnapshot, First;
    SnapshotCandidatesLeft(db, feed, product, cutoff, tie);
    var candidates := SnapshotCandidates(db, feed, product, tie);
    var left := map k | k in candidates && k in db.sessions && Retained(db, k, cutoff, tie) :: candidates[k];
    assert SnapshotCandidates(Pruned(db, cutoff, tie), feed, product, tie) == left;
    FirstIsACandidate(left);
  }

  lemma FirstIsACandidate(c: map<SessionKey, Rank>)
    requires Distinct(c)
    ensures First(c).Some? ==> First(c).value in c
  {
  }

  /** The members of a channel read for one product change exactly when the session they were read from is not
      retained and it, or the session read from afterwards, has any in that channel. */
  lemma RosterUnchangedIff(db: Database, feed: string, product: Option<string>, channel: string, cutoff: int,
                           tie: SessionKey -> int)
    requires TieBreak(tie) && feed in db.feeds && db.feeds[feed] >= cutoff
    ensures
      var was := SnapshotSession(db, feed, product, tie);
      var next := SuccessorSession(db, feed, product, cutoff, tie);
      Roster(Pruned(db, cutoff, tie), feed, product, channel, tie) == Roster(db, feed, product, channel, tie)
      <==> || was.None? || Retained(db, was.value, cutoff, tie)
           || (RosterOf(db, was.value, channel) == map[] && (next.None? || RosterOf(db, next.value, channel) == map[]))
  {
    hide Pruned, Retained, SuccessorSession, SnapshotSession, RosterOf;
    var after := Pruned(db, cutoff, tie);
    var was := SnapshotSession(db, feed, product, tie);
    var next := SuccessorSession(db, feed, product, cutoff, tie);
    SnapshotUnchangedIff(db, feed, product, cutoff, tie);
    SuccessorIsFound(db, feed, product, cutoff, tie);
    if next.Some? { RosterOfStays(db, next.value, channel, cutoff, tie); }
    if was.Some? {
      SnapshotIsOfFeed(db, feed, product, tie);
      if next.Some? && next != was { OtherRosters(db, was.value, next.value, channel); }
    }
  }

  lemma SnapshotIsOfFeed(db: Database, feed: string, product: Option<string>, tie: SessionKey -> int)
    requires TieBreak(tie)
    ensures
      var s := SnapshotSession(db, feed, product, tie);
      s.Some? ==> s.value.feed == feed && s.value in db.sessions
  {
  }

  /** Members of different sessions are different rows. */
  lemma OtherRosters(db: Database, a: SessionKey, b: SessionKey, channel: string)
    requires a.feed == b.feed && a != b
    ensures RosterOf(db, a, channel) == RosterOf(db, b, channel)
            <==> RosterOf(db, a, channel) == map[] && RosterOf(db, b, channel) == map[]
  {
    var x, y := RosterOf(db, a, channel), RosterOf(db, b, channel);
    assert forall r :: r in x ==> r !in y;
    if x == y {
      assert forall r :: r !in x;
      assert x == map[];
    }
  }

  /** Every cross-product read of a surviving feed is the same before and after. */
  lemma ReadersSeeNoChange(db: Database, feed: string, channel: string, cutoff: int, tie: SessionKey -> int)
    requires TieBreak(tie) && feed in db.feeds && db.feeds[feed] >= cutoff
    ensures
      var after := Pruned(db, cutoff, tie);
      var latest, snapshot := LatestSession(db, feed, None, tie), SnapshotSession(db, feed, None, tie);
      && feed in after.feeds
      && LatestSession(after, feed, None, tie) == latest && RowOf(after, latest) == RowOf(db, latest)
      && SnapshotSession(after, feed, None, tie) == snapshot && RowOf(after, snapshot) == RowOf(db, snapshot)
      && ChannelRows(after, feed, None, tie) == ChannelRows(db, feed, None, tie)
      && Roster(after, feed, None, channel, tie) == Roster(db, feed, None, channel, tie)
  {
    hide Pruned;
    var latest, snapshot := LatestSession(db, feed, None, tie), SnapshotSession(db, feed, None, tie);
    assert latest.Some? ==> Retained(db, latest.value, cutoff, tie);
    assert snapshot.Some? ==> Retained(db, snapshot.value, cutoff, tie);
    hide Retained, LatestSession, SnapshotSession, OpenChannels, RosterOf;
    FeedsLeft(db, cutoff, tie);
    SessionsLeft(db, cutoff, tie);
    LatestUnchangedIff(db, feed, None, cutoff, tie);
    SnapshotUnchangedIff(db, feed, None, cutoff, tie);
    ChannelRowsUnchangedIff(db, feed, None, cutoff, tie);
    if snapshot.Some? { RosterOfStays(db, snapshot.value, channel, cutoff, tie); }
  }

  // ---- again at the same time ----

  lemma RetainedAgain(db: Database, k: SessionKey, cutoff: int, tie: SessionKey -> int)
    requires TieBreak(tie) && Survives(db, k, cutoff, tie)
    ensures k in Pruned(db, cutoff, tie).sessions && Survives(Pruned(db, cutoff, tie), k, cutoff, tie)
  {
    hide Pruned, LatestSession, SnapshotSession;
    SessionsLeft(db, cutoff, tie);
    FeedsLeft(db, cutoff, tie);
    ReadersSeeNoChange(db, k.feed, "", cutoff, tie);
  }

  /** Pruning twice at the same time is pruning once. */
  lemma PruneIsIdempotent(db: Database, cutoff: int, tie: SessionKey -> int)
    requires TieBreak(tie)
    ensures
      var once := Pruned(db, cutoff, tie);
      Pruned(once, cutoff, tie) == once
  {
    hide Pruned, Retained, Survives;
    var once := Pruned(db, cutoff, tie);
    var twice := Pruned(once, cutoff, tie);
    SessionsLeft(db, cutoff, tie);
    forall k | k in once.sessions ensures Survives(once, k, cutoff, tie) {
      RetainedAgain(db, k, cutoff, tie);
    }
    SessionsLeft(once, cutoff, tie);
    assert forall k :: Survives(once, k, cutoff, tie) ==> k in once.sessions by { SurvivorsAreRows(once, cutoff, tie); }
    ChannelsLeft(once, cutoff, tie);
    RosterLeft(once, cutoff, tie);
    NoOrphans(db, cutoff, tie);
    FeedsLeft(db, cutoff, tie);
    FeedsLeft(once, cutoff, tie);
    assert twice.sessions == once.sessions;
    assert twice.channels == once.channels;
    assert twice.roster == once.roster;
    assert twice.feeds == once.feeds;
    assert twice.messages == once.messages;
  }

  lemma SurvivorsAreRows(db: Database, cutoff: int, tie: SessionKey -> int)
    requires TieBreak(tie)
    ensures forall k :: Survives(db, k, cutoff, tie) ==> k in db.sessions
  {
  }

  // ---- reads of one product ----

  function SessionOf(product: string, lastSeenAt: nat): Store.SessionRow {
    Store.SessionRow(Store.Session(product, "", 0), lastSeenAt, 0, None, None, 0)
  }

  const QUIET := SessionKey("feed", "a")
  const BUSY := SessionKey("feed", "b")

  function TwoProducts(): Database {
    Database(map["feed" := 100], map[QUIET := SessionOf("sc2", 0), BUSY := SessionOf("w3", 100)], map[], map[], map[])
  }

  /** A read scoped to one product is not protected: the product that went quiet disappears from a live feed. */
  lemma QuietProductDisappears(tie: SessionKey -> int)
    requires TieBreak(tie)
    ensures LatestSession(TwoProducts(), "feed", Some("sc2"), tie) == Some(QUIET)
    ensures LatestSession(Pruned(TwoProducts(), 50, tie), "feed", Some("sc2"), tie) == None
  {
    hide Pruned;
    var db := TwoProducts();
    var all, one := LatestCandidates(db, "feed", None, tie), LatestCandidates(db, "feed", Some("sc2"), tie);
    assert QUIET != BUSY && BUSY in all && QUIET in all && Beats(all[BUSY], all[QUIET]);
    assert QUIET in one && forall k :: k in one ==> k == QUIET;
    assert LatestSession(db, "feed", None, tie) == Some(BUSY);
    assert SnapshotSession(db, "feed", None, tie) == None;
    assert !Retained(db, QUIET, 50, tie);
    LatestCandidatesLeft(db, "feed", Some("sc2"), 50, tie);
    assert LatestCandidates(Pruned(db, 50, tie), "feed", Some("sc2"), tie) == map[];
  }
}
