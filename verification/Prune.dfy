/** Nightly retention (live/worker/prune.ts) against the readers' view of the tables
    (live/worker/read.ts). Every table is keyed by its primary key; a DELETE is a map restriction. */
module Pruning {
  import opened Common
  import Store

  datatype SessionKey = SessionKey(feed: string, id: string)

  datatype ChannelKey = ChannelKey(feed: string, session: string, key: string)

  datatype RosterKey = RosterKey(feed: string, session: string, channel: string, handle: nat)

  datatype Message = Message(feed: string, session: string, row: Store.MessageRow)

  /** A feed is represented by the time it was last heard from. */
  datatype Database = Database(
    feeds: map<string, nat>, sessions: map<SessionKey, Store.SessionRow>, channels: map<ChannelKey, Store.ChannelRow>,
    roster: map<RosterKey, Store.RosterRow>, messages: map<nat, Message>)

  // ---- ORDER BY ... DESC LIMIT 1 ----

  datatype Rank = Rank(first: int, second: int, tie: int)

  predicate Beats(a: Rank, b: Rank) {
    a.first > b.first || (a.first == b.first && (a.second > b.second || (a.second == b.second && a.tie > b.tie)))
  }

  /** What the engine does with rows the query leaves unordered: some fixed order of its own. */
  ghost predicate TieBreak(tie: SessionKey -> int) {
    forall a, b :: a != b ==> tie(a) != tie(b)
  }

  ghost predicate Distinct(c: map<SessionKey, Rank>) {
    forall a, b :: a in c && b in c && a != b ==> c[a].tie != c[b].tie
  }

  predicate Wins(c: map<SessionKey, Rank>, k: SessionKey) {
    k in c && forall other :: other in c && other != k ==> Beats(c[k], c[other])
  }

  lemma {:induction false} SomeoneWins(c: map<SessionKey, Rank>)
    requires c != map[] && Distinct(c)
    ensures exists k :: Wins(c, k)
    decreases |c|
  {
    var k := Any(c.Keys);
    var rest := c - {k};
    if rest == map[] {
      assert forall other :: other in c ==> other == k || other in rest;
      assert Wins(c, k);
    } else {
      SomeoneWins(rest);
      var m :| Wins(rest, m);
      assert forall other :: other in c ==> other == k || other in rest;
      assert Wins(c, if Beats(c[k], c[m]) then k else m);
    }
  }

  function First(c: map<SessionKey, Rank>): (r: Option<SessionKey>)
    requires Distinct(c)
    ensures r.None? <==> c == map[]
    ensures r.Some? ==> Wins(c, r.value)
  {
    if c == map[] then None
    else
      SomeoneWins(c);
      var k :| Wins(c, k);
      Some(k)
  }

  /** Removing losers does not change the winner; removing the winner does. */
  lemma WinnerAmongFewer(c: map<SessionKey, Rank>, fewer: map<SessionKey, Rank>)
    requires Distinct(c) && Distinct(fewer)
    requires forall k :: k in fewer ==> k in c && fewer[k] == c[k]
    ensures First(fewer) == First(c) <==> First(c).None? || First(c).value in fewer
  {
  }

  // ---- reads ----

  predicate HasOpenChannel(db: Database, session: SessionKey) {
    exists c :: c in db.channels && c.feed == session.feed && c.session == session.id && db.channels[c].closedAt.None?
  }

  predicate InScope(row: Store.SessionRow, product: Option<string>) {
    product.None? || row.meta.product == product.value
  }

  function LatestCandidates(db: Database, feed: string, product: Option<string>,
                            tie: SessionKey -> int): map<SessionKey, Rank> {
    map k | k in db.sessions && k.feed == feed && InScope(db.sessions[k], product)
      :: Rank(db.sessions[k].lastSeenAt, db.sessions[k].meta.startedAt, tie(k))
  }

  predicate IsSnapshot(db: Database, k: SessionKey, product: Option<string>) {
    && k in db.sessions
    && InScope(db.sessions[k], product)
    && db.sessions[k].syncedAt.Some?
    && HasOpenChannel(db, k)
  }

  function SnapshotCandidates(db: Database, feed: string, product: Option<string>,
                              tie: SessionKey -> int): map<SessionKey, Rank> {
    map k | k in db.sessions && k.feed == feed && IsSnapshot(db, k, product)
      :: Rank(db.sessions[k].syncedAt.value, db.sessions[k].meta.startedAt, tie(k))
  }

  function LatestSession(db: Database, feed: string, product: Option<string>,
                         tie: SessionKey -> int): Option<SessionKey>
    requires TieBreak(tie)
  {
    First(LatestCandidates(db, feed, product, tie))
  }

  function SnapshotSession(db: Database, feed: string, product: Option<string>,
                           tie: SessionKey -> int): Option<SessionKey>
    requires TieBreak(tie)
  {
    First(SnapshotCandidates(db, feed, product, tie))
  }

  function RowOf(db: Database, k: Option<SessionKey>): Option<Store.SessionRow> {
    if k.Some? && k.value in db.sessions then Some(db.sessions[k.value]) else None
  }

  datatype ChannelView = ChannelView(row: Store.ChannelRow, memberCount: nat)

  function RosterOf(db: Database, session: SessionKey, channel: string): map<RosterKey, Store.RosterRow> {
    map r | r in db.roster && r.feed == session.feed && r.session == session.id && r.channel == channel :: db.roster[r]
  }

  function OpenChannels(db: Database, session: SessionKey): map<ChannelKey, ChannelView> {
    map c | c in db.channels && c.feed == session.feed && c.session == session.id && db.channels[c].closedAt.None?
      :: ChannelView(db.channels[c], |RosterOf(db, session, c.key)|)
  }

  /** The rows determine the order the queries return them in, so a result is a map. */
  function ChannelRows(db: Database, feed: string, product: Option<string>, tie: SessionKey -> int): map<ChannelKey,
      ChannelView>
    requires TieBreak(tie)
  {
    var s := SnapshotSession(db, feed, product, tie);
    if s.None? then map[] else OpenChannels(db, s.value)
  }

  function Roster(db: Database, feed: string, product: Option<string>, channel: string,
                  tie: SessionKey -> int): map<RosterKey, Store.RosterRow>
    requires TieBreak(tie)
  {
    var s := SnapshotSession(db, feed, product, tie);
    if s.None? then map[] else RosterOf(db, s.value, channel)
  }

  // ---- deletes ----

  const DAY := 86_400_000

  /** `None` is a setting that is not a number. */
  function Cutoff(now: int, retention: Option<int>): int {
    now - (if retention.Some? && 1 <= retention.value <= 365 then retention.value else 14) * DAY
  }

  /** COALESCE turns a missing choice into the empty id. */
  function IdOrEmpty(k: Option<SessionKey>): string { if k.Some? then k.value.id else "" }

  predicate Retained(db: Database, k: SessionKey, cutoff: int, tie: SessionKey -> int)
    requires TieBreak(tie) && k in db.sessions
  {
    || db.sessions[k].lastSeenAt >= cutoff
    || k.id == IdOrEmpty(LatestSession(db, k.feed, None, tie))
    || k.id == IdOrEmpty(SnapshotSession(db, k.feed, None, tie))
  }

  function RecentMessages(db: Database, cutoff: int): map<nat, Message> {
    map m | m in db.messages && db.messages[m].row.ts >= cutoff :: db.messages[m]
  }

  function RetainedSessions(db: Database, cutoff: int, tie: SessionKey -> int): map<SessionKey, Store.SessionRow>
    requires TieBreak(tie)
  {
    map k | k in db.sessions && Retained(db, k, cutoff, tie) :: db.sessions[k]
  }

  function RecentFeeds(db: Database, cutoff: int): map<string, nat> {
    map f | f in db.feeds && db.feeds[f] >= cutoff :: db.feeds[f]
  }

  function Expired(db: Database, cutoff: int, tie: SessionKey -> int): Database
    requires TieBreak(tie)
  {
    var a := db.(messages := RecentMessages(db, cutoff));
    var b := a.(sessions := RetainedSessions(a, cutoff, tie));
    b.(feeds := RecentFeeds(b, cutoff))
  }

  predicate Owned(db: Database, feed: string, session: string) {
    feed in db.feeds && SessionKey(feed, session) in db.sessions
  }

  function OwnedRoster(db: Database): map<RosterKey, Store.RosterRow> {
    map r | r in db.roster && Owned(db, r.feed, r.session) :: db.roster[r]
  }

  function OwnedChannels(db: Database): map<ChannelKey, Store.ChannelRow> {
    map c | c in db.channels && Owned(db, c.feed, c.session) :: db.channels[c]
  }

  function OwnedSessions(db: Database): map<SessionKey, Store.SessionRow> {
    map k | k in db.sessions && k.feed in db.feeds :: db.sessions[k]
  }

  function Swept(db: Database): Database {
    var a := db.(roster := OwnedRoster(db));
    var b := a.(channels := OwnedChannels(a));
    b.(sessions := OwnedSessions(b))
  }

  function Pruned(db: Database, cutoff: int, tie: SessionKey -> int): Database
    requires TieBreak(tie)
  {
    Swept(Expired(db, cutoff, tie))
  }

  class Archive {
    var feeds: map<string, nat>
    var sessions: map<SessionKey, Store.SessionRow>
    var channels: map<ChannelKey, Store.ChannelRow>
    var roster: map<RosterKey, Store.RosterRow>
    var messages: map<nat, Message>

    function Contents(): Database
      reads this
    {
      Database(feeds, sessions, channels, roster, messages)
    }

    method Prune(now: int, retention: Option<int>, tie: SessionKey -> int)
      requires TieBreak(tie)
      modifies this
      ensures Contents() == Pruned(old(Contents()), Cutoff(now, retention), tie)
    {
      hide RetainedSessions, OwnedRoster, OwnedChannels, OwnedSessions, RecentFeeds, RecentMessages;
      var cutoff := Cutoff(now, retention);
      messages := RecentMessages(Contents(), cutoff);
      sessions := RetainedSessions(Contents(), cutoff, tie);
      feeds := RecentFeeds(Contents(), cutoff);
      roster := OwnedRoster(Contents());
      channels := OwnedChannels(Contents());
      sessions := OwnedSessions(Contents());
    }
  }
}
