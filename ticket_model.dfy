/**
  The values the ticket handler works on (configuration documents, ticket
  records, channels, members, messages) and the pure decisions it takes on
  them: the cache refresh test, the staff test, the ping cooldown, the
  inactivity and retention thresholds, what each background sweep leaves in
  the store, and the channel-name and position arithmetic of pin and unpin.
 */
module TicketModel {
  import opened JsStrings

  /** Discord ids (guild, user, channel, role) are strings. */
  type Snowflake = JsString

  /** A store document's `_id`. */
  type RecordId = nat

  /** One TicketConfig document, with the fields loadConfig copies into the cache. */
  datatype TicketConfig = TicketConfig(
    ticketChannelId: Option<Snowflake>,
    transcriptChannelId: Option<Snowflake>,
    adminRoleId: Option<Snowflake>,
    status: bool,
    categoryId: Option<Snowflake>,
    closedTicketsCategoryId: Option<Snowflake>,
    ownerId: Option<Snowflake>)

  /** JavaScript truthiness of an optional string field: present and not empty. */
  predicate Truthy(o: Option<JsString>) {
    o.Some? && |o.value| > 0
  }

  /** One TicketUserData document; every field but the owner and guild may be absent. */
  datatype Ticket = Ticket(
    userId: Snowflake,
    guildId: Snowflake,
    channelId: Option<Snowflake>,
    reason: Option<JsString>,
    lastActivityTime: Option<int>,
    closedAt: Option<int>,
    lastPing: Option<int>,
    originalPosition: Option<int>)

  /**
    A guild channel as the handler sees it. Permission overwrites are reduced
    to whether each user that has an overwrite may send messages.
   */
  datatype Channel = Channel(
    guildId: Snowflake,
    parentId: Option<Snowflake>,
    name: JsString,
    position: int,
    sendAllowed: map<Snowflake, bool>)

  /** The member behind an interaction: id, roles and whether it holds ManageChannels. */
  datatype Member = Member(id: Snowflake, roles: set<Snowflake>, manageChannels: bool)

  // ---------------------------------------------------------------- configuration cache

  const CONFIG_REFRESH_INTERVAL: int := 60000

  /** getConfig reloads when forced, when it never loaded (`!lastConfigLoad`, which 0 also passes) or when the cache is older than the interval. */
  predicate NeedsReload(force: bool, lastLoad: Option<int>, now: int) {
    force || lastLoad.None? || lastLoad.value == 0 || now - lastLoad.value > CONFIG_REFRESH_INTERVAL
  }

  /** The interval is exclusive: a cache exactly 60 s old is still used, one a millisecond older is reloaded. */
  lemma ReloadBoundary(loadedAt: int, now: int)
    requires loadedAt != 0
    ensures NeedsReload(false, Some(loadedAt), now) <==> now > loadedAt + 60000
    ensures !NeedsReload(false, Some(loadedAt), loadedAt + 60000)
    ensures NeedsReload(false, Some(loadedAt), loadedAt + 60001)
  {
  }

  // ---------------------------------------------------------------- authorization

  /** Staff: holds the configured admin role, is the configured owner, or holds ManageChannels. */
  predicate IsStaff(cfg: TicketConfig, m: Member) {
    || (cfg.adminRoleId.Some? && cfg.adminRoleId.value in m.roles)
    || cfg.ownerId == Some(m.id)
    || m.manageChannels
  }

  // ---------------------------------------------------------------- the record store

  /** `guild.channels.cache.get(id)` finds a channel: the id is present and names a channel of that guild. */
  predicate ChannelIn(channels: map<Snowflake, Channel>, guildId: Snowflake, id: Option<Snowflake>) {
    id.Some? && id.value in channels && channels[id.value].guildId == guildId
  }

  /** The records a `{ userId, guildId }` filter matches. */
  function OwnerRecords(ts: map<RecordId, Ticket>, userId: Snowflake, guildId: Snowflake): set<RecordId> {
    set id | id in ts && ts[id].userId == userId && ts[id].guildId == guildId
  }

  /** The records a `{ ticketChannelId }` filter matches. */
  function ChannelRecords(ts: map<RecordId, Ticket>, channelId: Snowflake): set<RecordId> {
    set id | id in ts && ts[id].channelId == Some(channelId)
  }

  /** The channel's record holds a saved pre-pin position. */
  predicate HasSavedPosition(ts: map<RecordId, Ticket>, channelId: Snowflake) {
    exists id | id in ChannelRecords(ts, channelId) :: ts[id].originalPosition.Some?
  }

  /** At most one record per (user, guild): creation looks before it creates, and the ping upsert matches first. */
  predicate OnePerOwner(ts: map<RecordId, Ticket>) {
    forall i, j | i in ts && j in ts && ts[i].userId == ts[j].userId && ts[i].guildId == ts[j].guildId :: i == j
  }

  /** At most one record per channel: every record with a channel got a freshly created one. */
  predicate OnePerChannel(ts: map<RecordId, Ticket>) {
    forall i, j | i in ts && j in ts && ts[i].channelId.Some? && ts[i].channelId == ts[j].channelId :: i == j
  }

  predicate SubMap(a: map<RecordId, Ticket>, b: map<RecordId, Ticket>) {
    forall id | id in a :: id in b && a[id] == b[id]
  }

  /** Removing records never breaks the uniqueness of owners or channels. */
  lemma SubMapKeepsUnique(a: map<RecordId, Ticket>, b: map<RecordId, Ticket>)
    requires SubMap(a, b) && OnePerOwner(b) && OnePerChannel(b)
    ensures OnePerOwner(a) && OnePerChannel(a)
  {
  }

  /** A new record keeps both filters unique when its owner has no record and its channel (if any) none either. */
  lemma AddRecordKeepsUnique(ts: map<RecordId, Ticket>, id: RecordId, t: Ticket)
    requires OnePerOwner(ts) && OnePerChannel(ts) && id !in ts
    requires OwnerRecords(ts, t.userId, t.guildId) == {}
    requires t.channelId.None? || ChannelRecords(ts, t.channelId.value) == {}
    ensures OnePerOwner(ts[id := t]) && OnePerChannel(ts[id := t])
  {
    forall j | j in ts ensures !(ts[j].userId == t.userId && ts[j].guildId == t.guildId) {
      assert j !in OwnerRecords(ts, t.userId, t.guildId);
    }
    if t.channelId.Some? {
      forall j | j in ts ensures ts[j].channelId != t.channelId {
        assert j !in ChannelRecords(ts, t.channelId.value);
      }
    }
  }

  lemma OnePerOwnerAtMostOne(ts: map<RecordId, Ticket>, userId: Snowflake, guildId: Snowflake, id: RecordId)
    requires OnePerOwner(ts) && id in OwnerRecords(ts, userId, guildId)
    ensures OwnerRecords(ts, userId, guildId) == {id}
  {
  }

  lemma OnePerChannelAtMostOne(ts: map<RecordId, Ticket>, channelId: Snowflake, id: RecordId)
    requires OnePerChannel(ts) && id in ChannelRecords(ts, channelId)
    ensures ChannelRecords(ts, channelId) == {id}
  {
  }

  /** Creation is blocked by a record of the owner in this guild whose channel still resolves, open or closed. */
  predicate BlockedByExisting(ts: map<RecordId, Ticket>, channels: map<Snowflake, Channel>, userId: Snowflake, guildId: Snowflake) {
    exists id | id in OwnerRecords(ts, userId, guildId) :: ChannelIn(channels, guildId, ts[id].channelId)
  }

  // ---------------------------------------------------------------- staff ping cooldown

  const STAFF_PING_COOLDOWN: int := 6 * 60 * 60 * 1000

  /** `userData?.lastPing && (now - userData.lastPing < 6h)` */
  predicate PingOnCooldown(lastPing: Option<int>, now: int) {
    lastPing.Some? && now - lastPing.value < STAFF_PING_COOLDOWN
  }

  /** A ping is refused up to the last millisecond before six hours and allowed from exactly six hours on. */
  lemma PingCooldownBoundary(lastPing: int, now: int)
    ensures PingOnCooldown(Some(lastPing), now) <==> now < lastPing + 21_600_000
    ensures PingOnCooldown(Some(lastPing), lastPing + 21_599_999)
    ensures !PingOnCooldown(Some(lastPing), lastPing + 21_600_000)
    ensures !PingOnCooldown(None, now)
  {
  }

  // ---------------------------------------------------------------- sweep thresholds

  const INACTIVITY_TIMEOUT: int := 72 * 60 * 60 * 1000
  const CLOSED_TICKET_TIMEOUT: int := 24 * 60 * 60 * 1000
  const HOUR: int := 60 * 60 * 1000

  /** `lastActivityTime: { $lt: now - 72h }`: a record without the field never matches. */
  predicate Inactive(t: Ticket, now: int) {
    t.lastActivityTime.Some? && t.lastActivityTime.value < now - INACTIVITY_TIMEOUT
  }

  /** `closedAt: { $ne: null, $lt: now - 24h }` */
  predicate RetentionExpired(t: Ticket, now: int) {
    t.closedAt.Some? && t.closedAt.value < now - CLOSED_TICKET_TIMEOUT
  }

  lemma InactivityBoundary(t: Ticket, now: int)
    requires t.lastActivityTime.Some?
    ensures t.lastActivityTime == Some(now - 73 * HOUR) ==> Inactive(t, now)
    ensures t.lastActivityTime == Some(now - 72 * HOUR) ==> !Inactive(t, now)
    ensures t.lastActivityTime == Some(now - 71 * HOUR) ==> !Inactive(t, now)
    ensures Inactive(t, now) <==> now - t.lastActivityTime.value > 72 * HOUR
  {
  }

  lemma RetentionBoundary(t: Ticket, now: int)
    requires t.closedAt.Some?
    ensures t.closedAt == Some(now - 25 * HOUR) ==> RetentionExpired(t, now)
    ensures t.closedAt == Some(now - 24 * HOUR) ==> !RetentionExpired(t, now)
    ensures t.closedAt == Some(now - 23 * HOUR) ==> !RetentionExpired(t, now)
    ensures RetentionExpired(t, now) <==> now - t.closedAt.value > 24 * HOUR
  {
  }

  // ---------------------------------------------------------------- orphan sweep

  /** The orphan sweep deletes a record whose guild is cached but whose channel is not found in it. */
  predicate Orphaned(t: Ticket, guilds: set<Snowflake>, channels: map<Snowflake, Channel>) {
    t.guildId in guilds && !ChannelIn(channels, t.guildId, t.channelId)
  }

  /** The store after cleanupStaleTickets. */
  function OrphanSweep(ts: map<RecordId, Ticket>, guilds: set<Snowflake>, channels: map<Snowflake, Channel>): map<RecordId, Ticket> {
    map id | id in ts && !Orphaned(ts[id], guilds, channels) :: ts[id]
  }

  /** The orphan sweep removes exactly the orphaned records, leaves the rest untouched, and a second run finds nothing. */
  lemma OrphanSweepProperties(ts: map<RecordId, Ticket>, guilds: set<Snowflake>, channels: map<Snowflake, Channel>)
    ensures SubMap(OrphanSweep(ts, guilds, channels), ts)
    ensures forall id | id in ts :: id !in OrphanSweep(ts, guilds, channels) <==> Orphaned(ts[id], guilds, channels)
    ensures OrphanSweep(OrphanSweep(ts, guilds, channels), guilds, channels) == OrphanSweep(ts, guilds, channels)
  {
  }

  /** A record the ping upsert created (it has no channel) is deleted by the next orphan sweep, cooldown and all. */
  lemma PingOnlyRecordIsOrphan(ts: map<RecordId, Ticket>, guilds: set<Snowflake>, channels: map<Snowflake, Channel>, id: RecordId)
    requires id in ts && ts[id].channelId.None? && ts[id].guildId in guilds
    ensures id !in OrphanSweep(ts, guilds, channels)
  {
  }

  // ---------------------------------------------------------------- inactivity sweep

  /** The inactivity sweep closes a selected record whose guild, channel and configuration all resolve. */
  predicate AutoCloseScheduled(t: Ticket, now: int, guilds: set<Snowflake>, channels: map<Snowflake, Channel>, configs: map<Snowflake, TicketConfig>) {
    Inactive(t, now) && t.guildId in guilds && ChannelIn(channels, t.guildId, t.channelId) && t.guildId in configs
  }

  /** The inactivity sweep deletes a selected record whose guild resolves, unless its channel resolves and its configuration does not. */
  predicate AutoCloseDrops(t: Ticket, now: int, guilds: set<Snowflake>, channels: map<Snowflake, Channel>, configs: map<Snowflake, TicketConfig>) {
    Inactive(t, now) && t.guildId in guilds && (!ChannelIn(channels, t.guildId, t.channelId) || t.guildId in configs)
  }

  /** The store after autoCloseInactiveTickets. */
  function AutoCloseSweep(ts: map<RecordId, Ticket>, now: int, guilds: set<Snowflake>, channels: map<Snowflake, Channel>, configs: map<Snowflake, TicketConfig>): map<RecordId, Ticket> {
    map id | id in ts && !AutoCloseDrops(ts[id], now, guilds, channels, configs) :: ts[id]
  }

  /** What the 5-second continuation of an automatic close captured. */
  datatype AutoCloseTimer = AutoCloseTimer(recordId: RecordId, userId: Snowflake, channelId: Snowflake, config: TicketConfig)

  /** The continuations autoCloseInactiveTickets schedules. */
  function AutoCloseTimers(ts: map<RecordId, Ticket>, now: int, guilds: set<Snowflake>, channels: map<Snowflake, Channel>, configs: map<Snowflake, TicketConfig>): set<AutoCloseTimer> {
    set id | id in ts && AutoCloseScheduled(ts[id], now, guilds, channels, configs) ::
      AutoCloseTimer(id, ts[id].userId, ts[id].channelId.value, configs[ts[id].guildId])
  }

  /**
    What the inactivity sweep keeps of a selected record: exactly those whose guild is gone,
    or whose channel resolves while the configuration is missing; a record that is not selected
    stays. Every record it schedules a close for is already gone from the store, and a second
    sweep over the same world does nothing.
   */
  lemma AutoCloseSweepProperties(ts: map<RecordId, Ticket>, now: int, guilds: set<Snowflake>, channels: map<Snowflake, Channel>, configs: map<Snowflake, TicketConfig>)
    ensures SubMap(AutoCloseSweep(ts, now, guilds, channels, configs), ts)
    ensures forall id | id in ts && Inactive(ts[id], now) ::
      id in AutoCloseSweep(ts, now, guilds, channels, configs) <==>
        (ts[id].guildId !in guilds || (ChannelIn(channels, ts[id].guildId, ts[id].channelId) && ts[id].guildId !in configs))
    ensures forall id | id in ts && !Inactive(ts[id], now) :: id in AutoCloseSweep(ts, now, guilds, channels, configs)
    ensures forall t | t in AutoCloseTimers(ts, now, guilds, channels, configs) :: t.recordId !in AutoCloseSweep(ts, now, guilds, channels, configs)
    ensures AutoCloseSweep(AutoCloseSweep(ts, now, guilds, channels, configs), now, guilds, channels, configs) == AutoCloseSweep(ts, now, guilds, channels, configs)
    ensures AutoCloseTimers(AutoCloseSweep(ts, now, guilds, channels, configs), now, guilds, channels, configs) == {}
  {
    var swept := AutoCloseSweep(ts, now, guilds, channels, configs);
    forall t | t in AutoCloseTimers(ts, now, guilds, channels, configs) ensures t.recordId !in swept {
      var id :| id in ts && AutoCloseScheduled(ts[id], now, guilds, channels, configs) &&
        t == AutoCloseTimer(id, ts[id].userId, ts[id].channelId.value, configs[ts[id].guildId]);
    }
    assert forall id | id in swept :: !AutoCloseScheduled(swept[id], now, guilds, channels, configs);
  }

  /** The store after the inactivity loop has handled the records `ids`. */
  function AutoCloseSweepAmong(ts: map<RecordId, Ticket>, ids: set<RecordId>, now: int, guilds: set<Snowflake>, channels: map<Snowflake, Channel>, configs: map<Snowflake, TicketConfig>): map<RecordId, Ticket> {
    map id | id in ts && !(id in ids && AutoCloseDrops(ts[id], now, guilds, channels, configs)) :: ts[id]
  }

  /** The continuations the inactivity loop has scheduled after handling the records `ids`. */
  function AutoCloseTimersAmong(ts: map<RecordId, Ticket>, ids: set<RecordId>, now: int, guilds: set<Snowflake>, channels: map<Snowflake, Channel>, configs: map<Snowflake, TicketConfig>): set<AutoCloseTimer> {
    set id | id in ids && id in ts && AutoCloseScheduled(ts[id], now, guilds, channels, configs) ::
      AutoCloseTimer(id, ts[id].userId, ts[id].channelId.value, configs[ts[id].guildId])
  }

  /** Handling one more record deletes it exactly when AutoCloseDrops holds and schedules it exactly when AutoCloseScheduled does. */
  lemma AutoCloseAmongStep(ts: map<RecordId, Ticket>, ids: set<RecordId>, id: RecordId, now: int, guilds: set<Snowflake>, channels: map<Snowflake, Channel>, configs: map<Snowflake, TicketConfig>)
    requires id in ts && id !in ids
    ensures AutoCloseSweepAmong(ts, ids + {id}, now, guilds, channels, configs) ==
      if AutoCloseDrops(ts[id], now, guilds, channels, configs) then AutoCloseSweepAmong(ts, ids, now, guilds, channels, configs) - {id}
      else AutoCloseSweepAmong(ts, ids, now, guilds, channels, configs)
    ensures AutoCloseTimersAmong(ts, ids + {id}, now, guilds, channels, configs) ==
      if AutoCloseScheduled(ts[id], now, guilds, channels, configs)
      then AutoCloseTimersAmong(ts, ids, now, guilds, channels, configs) + {AutoCloseTimer(id, ts[id].userId, ts[id].channelId.value, configs[ts[id].guildId])}
      else AutoCloseTimersAmong(ts, ids, now, guilds, channels, configs)
  {
  }

  /** Handling every inactive record is the whole sweep: records that are not inactive are never dropped nor scheduled. */
  lemma AutoCloseAmongInactive(ts: map<RecordId, Ticket>, now: int, guilds: set<Snowflake>, channels: map<Snowflake, Channel>, configs: map<Snowflake, TicketConfig>)
    ensures var inactive := set id | id in ts && Inactive(ts[id], now);
      && AutoCloseSweepAmong(ts, inactive, now, guilds, channels, configs) == AutoCloseSweep(ts, now, guilds, channels, configs)
      && AutoCloseTimersAmong(ts, inactive, now, guilds, channels, configs) == AutoCloseTimers(ts, now, guilds, channels, configs)
  {
  }

  /**
    The intended selection of the inactivity sweep: inactive and not yet closed, that is the
    query of autoCloseInactiveTickets with `closedAt: null` added.
   */
  predicate OpenAndInactive(t: Ticket, now: int) {
    Inactive(t, now) && t.closedAt.None?
  }

  /** The intended sweep after handling the records `ids`: only selected orphans are deleted. */
  function AutoCloseSweepIntendedAmong(ts: map<RecordId, Ticket>, ids: set<RecordId>, now: int, guilds: set<Snowflake>, channels: map<Snowflake, Channel>): map<RecordId, Ticket> {
    map id | id in ts && !(id in ids && OpenAndInactive(ts[id], now) && ts[id].guildId in guilds && !ChannelIn(channels, ts[id].guildId, ts[id].channelId)) :: ts[id]
  }

  /** The continuations the intended loop has scheduled after handling the records `ids`: open records only. */
  function AutoCloseTimersIntendedAmong(ts: map<RecordId, Ticket>, ids: set<RecordId>, now: int, guilds: set<Snowflake>, channels: map<Snowflake, Channel>, configs: map<Snowflake, TicketConfig>): set<AutoCloseTimer> {
    set id | id in ids && id in ts && ts[id].closedAt.None? && AutoCloseScheduled(ts[id], now, guilds, channels, configs) ::
      AutoCloseTimer(id, ts[id].userId, ts[id].channelId.value, configs[ts[id].guildId])
  }

  /** One iteration of the intended loop deletes a selected orphan and schedules a selected record whose guild, channel and configuration resolve. */
  lemma AutoCloseIntendedAmongStep(ts: map<RecordId, Ticket>, ids: set<RecordId>, id: RecordId, now: int, guilds: set<Snowflake>, channels: map<Snowflake, Channel>, configs: map<Snowflake, TicketConfig>)
    requires id in ts && id !in ids
    ensures AutoCloseSweepIntendedAmong(ts, ids + {id}, now, guilds, channels) ==
      if OpenAndInactive(ts[id], now) && ts[id].guildId in guilds && !ChannelIn(channels, ts[id].guildId, ts[id].channelId)
      then AutoCloseSweepIntendedAmong(ts, ids, now, guilds, channels) - {id}
      else AutoCloseSweepIntendedAmong(ts, ids, now, guilds, channels)
    ensures AutoCloseTimersIntendedAmong(ts, ids + {id}, now, guilds, channels, configs) ==
      if ts[id].closedAt.None? && AutoCloseScheduled(ts[id], now, guilds, channels, configs)
      then AutoCloseTimersIntendedAmong(ts, ids, now, guilds, channels, configs) + {AutoCloseTimer(id, ts[id].userId, ts[id].channelId.value, configs[ts[id].guildId])}
      else AutoCloseTimersIntendedAmong(ts, ids, now, guilds, channels, configs)
  {
  }

  /**
    The inactivity sweep as the code evidently intends it: it selects only open tickets, the
    record of a ticket it closes stays in the store so that the continuation can stamp
    `closedAt` on it, and only records whose channel is gone are deleted.
   */
  function AutoCloseSweepIntended(ts: map<RecordId, Ticket>, now: int, guilds: set<Snowflake>, channels: map<Snowflake, Channel>): map<RecordId, Ticket> {
    AutoCloseSweepIntendedAmong(ts, ts.Keys, now, guilds, channels)
  }

  /** The continuations of the intended sweep. */
  function AutoCloseTimersIntended(ts: map<RecordId, Ticket>, now: int, guilds: set<Snowflake>, channels: map<Snowflake, Channel>, configs: map<Snowflake, TicketConfig>): set<AutoCloseTimer> {
    AutoCloseTimersIntendedAmong(ts, ts.Keys, now, guilds, channels, configs)
  }

  /** Handling the selected records alone is the whole intended sweep. */
  lemma AutoCloseIntendedAmongSelected(ts: map<RecordId, Ticket>, now: int, guilds: set<Snowflake>, channels: map<Snowflake, Channel>, configs: map<Snowflake, TicketConfig>)
    ensures var selected := set id | id in ts && OpenAndInactive(ts[id], now);
      && AutoCloseSweepIntendedAmong(ts, selected, now, guilds, channels) == AutoCloseSweepIntended(ts, now, guilds, channels)
      && AutoCloseTimersIntendedAmong(ts, selected, now, guilds, channels, configs) == AutoCloseTimersIntended(ts, now, guilds, channels, configs)
  {
  }

  /** The intended sweep leaves a closed record alone: it stays, unchanged, and gets no continuation. */
  lemma IntendedSweepSkipsClosed(ts: map<RecordId, Ticket>, now: int, guilds: set<Snowflake>, channels: map<Snowflake, Channel>, configs: map<Snowflake, TicketConfig>, id: RecordId)
    requires id in ts && ts[id].closedAt.Some?
    ensures id in AutoCloseSweepIntended(ts, now, guilds, channels) && AutoCloseSweepIntended(ts, now, guilds, channels)[id] == ts[id]
    ensures forall t | t in AutoCloseTimersIntended(ts, now, guilds, channels, configs) :: t.recordId != id
  {
    forall t | t in AutoCloseTimersIntended(ts, now, guilds, channels, configs) ensures t.recordId != id {
      var j :| j in ts.Keys && j in ts && ts[j].closedAt.None? && AutoCloseScheduled(ts[j], now, guilds, channels, configs) &&
        t == AutoCloseTimer(j, ts[j].userId, ts[j].channelId.value, configs[ts[j].guildId]);
    }
  }

  /** One tick of the hourly inactivity timer: its time and the world it sees. */
  datatype Tick = Tick(now: int, guilds: set<Snowflake>, channels: map<Snowflake, Channel>)

  /** The store after intended inactivity sweeps at the given ticks, one after the other. */
  function IntendedSweeps(ts: map<RecordId, Ticket>, ticks: seq<Tick>): map<RecordId, Ticket>
    decreases |ticks|
  {
    if ticks == [] then ts
    else IntendedSweeps(AutoCloseSweepIntended(ts, ticks[0].now, ticks[0].guilds, ticks[0].channels), ticks[1..])
  }

  /** However many intended sweeps run, a closed record stays exactly as it was. */
  lemma {:induction false} ClosedRecordSurvivesIntendedSweeps(ts: map<RecordId, Ticket>, ticks: seq<Tick>, id: RecordId)
    requires id in ts && ts[id].closedAt.Some?
    ensures id in IntendedSweeps(ts, ticks) && IntendedSweeps(ts, ticks)[id] == ts[id]
    decreases |ticks|
  {
    if ticks != [] {
      IntendedSweepSkipsClosed(ts, ticks[0].now, ticks[0].guilds, ticks[0].channels, map[], id);
      ClosedRecordSurvivesIntendedSweeps(AutoCloseSweepIntended(ts, ticks[0].now, ticks[0].guilds, ticks[0].channels), ticks[1..], id);
    }
  }

  /**
    As written, a ticket the inactivity sweep closes keeps no record: the store holds nothing for
    its channel, so the continuation's closedAt stamp matches nothing, and no later retention sweep
    (in any world) deletes the archived channel.
   */
  lemma AutoClosedChannelLosesItsRecord(ts: map<RecordId, Ticket>, now: int, guilds: set<Snowflake>, channels: map<Snowflake, Channel>,
                                        configs: map<Snowflake, TicketConfig>, t: AutoCloseTimer,
                                        later: int, laterGuilds: set<Snowflake>, laterChannels: map<Snowflake, Channel>)
    requires OnePerChannel(ts)
    requires t in AutoCloseTimers(ts, now, guilds, channels, configs)
    ensures t.recordId !in AutoCloseSweep(ts, now, guilds, channels, configs)
    ensures ChannelRecords(AutoCloseSweep(ts, now, guilds, channels, configs), t.channelId) == {}
    ensures t.channelId !in RetentionChannels(AutoCloseSweep(ts, now, guilds, channels, configs), later, laterGuilds, laterChannels)
  {
    var swept := AutoCloseSweep(ts, now, guilds, channels, configs);
    var id :| id in ts && AutoCloseScheduled(ts[id], now, guilds, channels, configs) &&
      t == AutoCloseTimer(id, ts[id].userId, ts[id].channelId.value, configs[ts[id].guildId]);
    forall j | j in swept ensures swept[j].channelId != Some(t.channelId) {
      assert j != id;
    }
  }

  // ---------------------------------------------------------------- retention sweep

  /** The store after deleteOldClosedTickets: every selected record is deleted. */
  function RetentionSweep(ts: map<RecordId, Ticket>, now: int): map<RecordId, Ticket> {
    map id | id in ts && !RetentionExpired(ts[id], now) :: ts[id]
  }

  /** Does the retention sweep delete the channel of this record? Only a selected record whose guild and channel resolve. */
  predicate RetentionDeletesChannel(t: Ticket, now: int, guilds: set<Snowflake>, channels: map<Snowflake, Channel>) {
    RetentionExpired(t, now) && t.guildId in guilds && ChannelIn(channels, t.guildId, t.channelId)
  }

  /** The channels deleteOldClosedTickets deletes, among the records `ids`. */
  function RetentionChannelsAmong(ts: map<RecordId, Ticket>, ids: set<RecordId>, now: int, guilds: set<Snowflake>, channels: map<Snowflake, Channel>): set<Snowflake> {
    set id | id in ids && id in ts && RetentionDeletesChannel(ts[id], now, guilds, channels) :: ts[id].channelId.value
  }

  function RetentionChannels(ts: map<RecordId, Ticket>, now: int, guilds: set<Snowflake>, channels: map<Snowflake, Channel>): set<Snowflake> {
    RetentionChannelsAmong(ts, ts.Keys, now, guilds, channels)
  }

  /**
    The retention sweep removes exactly the expired records and leaves every other record
    untouched; a second sweep deletes neither records nor channels.
   */
  lemma RetentionSweepProperties(ts: map<RecordId, Ticket>, now: int, guilds: set<Snowflake>, channels: map<Snowflake, Channel>)
    ensures SubMap(RetentionSweep(ts, now), ts)
    ensures forall id | id in ts :: id in RetentionSweep(ts, now) <==> !RetentionExpired(ts[id], now)
    ensures forall id | id in RetentionSweep(ts, now) :: !RetentionExpired(RetentionSweep(ts, now)[id], now)
    ensures RetentionSweep(RetentionSweep(ts, now), now) == RetentionSweep(ts, now)
    ensures RetentionChannels(RetentionSweep(ts, now), now, guilds, channels) == {}
  {
    var swept := RetentionSweep(ts, now);
    assert forall id | id in swept :: !RetentionDeletesChannel(swept[id], now, guilds, channels);
  }

  /**
    With the intended sweep the record of an automatically closed ticket survives; once the
    continuation stamps closedAt, no later intended sweep touches it, however many run on the
    hourly timer, and the retention sweep more than 24 hours after the stamp deletes the record
    and, whenever guild and channel still resolve, the channel, as for a manually closed ticket.
   */
  lemma IntendedAutoCloseReachesRetention(ts: map<RecordId, Ticket>, now: int, guilds: set<Snowflake>, channels: map<Snowflake, Channel>,
                                          configs: map<Snowflake, TicketConfig>, t: AutoCloseTimer, firedAt: int, ticks: seq<Tick>,
                                          later: int, laterGuilds: set<Snowflake>, laterChannels: map<Snowflake, Channel>)
    requires t in AutoCloseTimersIntended(ts, now, guilds, channels, configs)
    requires later - firedAt > 24 * HOUR
    ensures t.recordId in AutoCloseSweepIntended(ts, now, guilds, channels)
    ensures var swept := AutoCloseSweepIntended(ts, now, guilds, channels);
      var stamped := swept[t.recordId := swept[t.recordId].(closedAt := Some(firedAt))];
      var hourly := IntendedSweeps(stamped, ticks);
      && t.recordId in hourly && hourly[t.recordId] == stamped[t.recordId]
      && hourly[t.recordId].channelId == Some(t.channelId)
      && t.recordId !in RetentionSweep(hourly, later)
      && (hourly[t.recordId].guildId in laterGuilds && ChannelIn(laterChannels, hourly[t.recordId].guildId, Some(t.channelId)) ==>
            t.channelId in RetentionChannels(hourly, later, laterGuilds, laterChannels))
  {
    var id :| id in ts.Keys && id in ts && ts[id].closedAt.None? && AutoCloseScheduled(ts[id], now, guilds, channels, configs) &&
      t == AutoCloseTimer(id, ts[id].userId, ts[id].channelId.value, configs[ts[id].guildId]);
    var swept := AutoCloseSweepIntended(ts, now, guilds, channels);
    assert id in swept;
    var stamped := swept[id := swept[id].(closedAt := Some(firedAt))];
    ClosedRecordSurvivesIntendedSweeps(stamped, ticks, id);
    var hourly := IntendedSweeps(stamped, ticks);
    assert RetentionExpired(hourly[id], later);
  }

  /**
    As written, the inactivity query does not skip closed tickets: a ticket closed by button whose
    owner has been silent for 72 hours is selected again and its record deleted, so no retention
    sweep (in any world) ever reaches its archived channel.
   */
  lemma ClosedTicketLosesItsRecord(ts: map<RecordId, Ticket>, now: int, guilds: set<Snowflake>, channels: map<Snowflake, Channel>,
                                   configs: map<Snowflake, TicketConfig>, id: RecordId,
                                   later: int, laterGuilds: set<Snowflake>, laterChannels: map<Snowflake, Channel>)
    requires OnePerChannel(ts)
    requires id in ts && ts[id].closedAt.Some? && ts[id].channelId.Some?
    requires Inactive(ts[id], now) && ts[id].guildId in guilds && ts[id].guildId in configs
    ensures id !in AutoCloseSweep(ts, now, guilds, channels, configs)
    ensures ChannelRecords(AutoCloseSweep(ts, now, guilds, channels, configs), ts[id].channelId.value) == {}
    ensures ts[id].channelId.value !in RetentionChannels(AutoCloseSweep(ts, now, guilds, channels, configs), later, laterGuilds, laterChannels)
  {
    var swept := AutoCloseSweep(ts, now, guilds, channels, configs);
    forall j | j in swept ensures swept[j].channelId != ts[id].channelId {
      assert j != id;
    }
  }

  // ---------------------------------------------------------------- pin and unpin

  /** '📌' (U+1F4CC) as a JavaScript string: two code units. */
  const PIN_MARKER: JsString := [0xD83D, 0xDCCC]

  lemma PinMarkerIsUtf16()
    ensures PIN_MARKER == EncodeCodePoint(0x1F4CC)
  {
  }

  predicate IsPinnedName(name: JsString) {
    StartsWith(name, PIN_MARKER)
  }

  /** `📌${currentName}` */
  function PinnedName(name: JsString): JsString {
    PIN_MARKER + name
  }

  /** `currentName.slice(1)` */
  function UnpinnedName(name: JsString): JsString {
    if |name| == 0 then [] else name[1..]
  }

  /**
    Unpinning a pinned name does not give the name back: slice(1) drops only the high
    surrogate of the marker, and the name keeps a lone low surrogate (and is still not pinned).
   */
  lemma UnpinLeavesLowSurrogate(name: JsString)
    ensures IsPinnedName(PinnedName(name))
    ensures UnpinnedName(PinnedName(name)) == [0xDCCC] + name
    ensures UnpinnedName(PinnedName(name)) != name
    ensures !IsPinnedName(UnpinnedName(PinnedName(name)))
  {
    StartsWithConcat(PIN_MARKER, name);
    var u := UnpinnedName(PinnedName(name));
    assert u == PinnedName(name)[1..];
    assert u[0] == 0xDCCC;
    assert |u| == |name| + 1;
  }

  /** Unpinning as the comment at the call intends: remove the whole marker. */
  function UnpinnedNameIntended(name: JsString): JsString {
    if IsPinnedName(name) then name[|PIN_MARKER|..] else name
  }

  lemma UnpinIntendedRoundTrip(name: JsString)
    ensures UnpinnedNameIntended(PinnedName(name)) == name
    ensures IsPinnedName(name) ==> PinnedName(UnpinnedNameIntended(name)) == name
  {
    StartsWithConcat(PIN_MARKER, name);
    if IsPinnedName(name) {
      assert name == name[..|PIN_MARKER|] + name[|PIN_MARKER|..];
    }
  }

  /** A child of a category as the pin loop reads it. */
  datatype ChildView = ChildView(id: Snowflake, name: JsString, position: int)

  /** `channel.parent.children.cache.values()`: the channels of `order` whose parent is `parentId`, in that order. */
  function Children(channels: map<Snowflake, Channel>, order: seq<Snowflake>, parentId: Snowflake): (r: seq<ChildView>)
    ensures forall k | 0 <= k < |r| ::
      (r[k].id in channels && channels[r[k].id].parentId == Some(parentId)
       && r[k] == ChildView(r[k].id, channels[r[k].id].name, channels[r[k].id].position))
    decreases |order|
  {
    if order == [] then []
    else
      var rest := Children(channels, order[1..], parentId);
      var c := order[0];
      if c in channels && channels[c].parentId == Some(parentId) then
        [ChildView(c, channels[c].name, channels[c].position)] + rest
      else rest
  }

  /** The channel ids `order` lists under `parentId`. */
  predicate ChildOf(channels: map<Snowflake, Channel>, c: Snowflake, parentId: Snowflake) {
    c in channels && channels[c].parentId == Some(parentId)
  }

  /** Every child Children lists comes from `order`. */
  lemma {:induction false} ChildrenFromOrder(channels: map<Snowflake, Channel>, order: seq<Snowflake>, parentId: Snowflake)
    ensures forall k | 0 <= k < |Children(channels, order, parentId)| :: Children(channels, order, parentId)[k].id in order
    decreases |order|
  {
    if order != [] {
      ChildrenFromOrder(channels, order[1..], parentId);
      var r := Children(channels, order, parentId);
      var rest := Children(channels, order[1..], parentId);
      forall k | 0 <= k < |r| ensures r[k].id in order {
        if ChildOf(channels, order[0], parentId) {
          if k > 0 {
            assert r[k] == rest[k - 1];
            assert rest[k - 1].id in order[1..];
          }
        } else {
          assert r[k] == rest[k];
          assert rest[k].id in order[1..];
        }
      }
    }
  }

  /** The listing `r` shows channel `c`. */
  predicate Listed(r: seq<ChildView>, c: Snowflake) {
    exists k | 0 <= k < |r| :: r[k].id == c
  }

  /** Channel `a` comes before channel `b` in `order`. */
  predicate Precedes(order: seq<Snowflake>, a: Snowflake, b: Snowflake) {
    exists i1, i2 | 0 <= i1 < i2 < |order| :: order[i1] == a && order[i2] == b
  }

  /** Children misses no child: every channel of `order` under the category is listed. */
  lemma {:induction false} ChildrenComplete(channels: map<Snowflake, Channel>, order: seq<Snowflake>, parentId: Snowflake)
    ensures forall i | 0 <= i < |order| && ChildOf(channels, order[i], parentId) :: Listed(Children(channels, order, parentId), order[i])
    decreases |order|
  {
    if order != [] {
      var tail := order[1..];
      ChildrenComplete(channels, tail, parentId);
      var r := Children(channels, order, parentId);
      var rest := Children(channels, tail, parentId);
      forall i | 0 <= i < |order| && ChildOf(channels, order[i], parentId) ensures Listed(r, order[i]) {
        if ChildOf(channels, order[0], parentId) && i == 0 {
          assert r[0].id == order[0];
        } else {
          assert tail[i - 1] == order[i];
          assert Listed(rest, tail[i - 1]);
          var k :| 0 <= k < |rest| && rest[k].id == order[i];
          if ChildOf(channels, order[0], parentId) {
            assert r[k + 1] == rest[k];
          } else {
            assert r[k] == rest[k];
          }
        }
      }
    }
  }

  /** Children keeps cache order: of two listed children, the earlier one comes first in `order`. */
  lemma {:induction false} ChildrenInOrder(channels: map<Snowflake, Channel>, order: seq<Snowflake>, parentId: Snowflake)
    ensures forall k1, k2 | 0 <= k1 < k2 < |Children(channels, order, parentId)| ::
      Precedes(order, Children(channels, order, parentId)[k1].id, Children(channels, order, parentId)[k2].id)
    decreases |order|
  {
    if order != [] {
      var tail := order[1..];
      ChildrenInOrder(channels, tail, parentId);
      ChildrenFromOrder(channels, tail, parentId);
      var r := Children(channels, order, parentId);
      var rest := Children(channels, tail, parentId);
      forall k1, k2 | 0 <= k1 < k2 < |r| ensures Precedes(order, r[k1].id, r[k2].id) {
        if ChildOf(channels, order[0], parentId) {
          assert r[k2] == rest[k2 - 1];
          if k1 == 0 {
            assert rest[k2 - 1].id in tail;
            var j :| 0 <= j < |tail| && tail[j] == rest[k2 - 1].id;
            assert order[0] == r[k1].id && order[j + 1] == r[k2].id;
          } else {
            assert r[k1] == rest[k1 - 1];
            assert Precedes(tail, rest[k1 - 1].id, rest[k2 - 1].id);
            var j1, j2 :| 0 <= j1 < j2 < |tail| && tail[j1] == rest[k1 - 1].id && tail[j2] == rest[k2 - 1].id;
            assert order[j1 + 1] == r[k1].id && order[j2 + 1] == r[k2].id;
          }
        } else {
          assert r[k1] == rest[k1] && r[k2] == rest[k2];
          assert Precedes(tail, rest[k1].id, rest[k2].id);
          var j1, j2 :| 0 <= j1 < j2 < |tail| && tail[j1] == rest[k1].id && tail[j2] == rest[k2].id;
          assert order[j1 + 1] == r[k1].id && order[j2 + 1] == r[k2].id;
        }
      }
    }
  }

  predicate PinnedOther(v: ChildView, selfId: Snowflake) {
    IsPinnedName(v.name) && v.id != selfId
  }

  /** `lastPinnedPosition` after the loop: the position of the last pinned child other than the channel itself, or -1. */
  function LastPinnedPosition(children: seq<ChildView>, selfId: Snowflake): int
    decreases |children|
  {
    if children == [] then -1
    else if PinnedOther(children[|children| - 1], selfId) then children[|children| - 1].position
    else LastPinnedPosition(children[..|children| - 1], selfId)
  }

  /** The loop's result is the position of the last pinned other child, and -1 when there is none. */
  lemma {:induction false} LastPinnedPositionSpec(children: seq<ChildView>, selfId: Snowflake)
    ensures (forall k | 0 <= k < |children| :: !PinnedOther(children[k], selfId)) ==> LastPinnedPosition(children, selfId) == -1
    ensures forall k | 0 <= k < |children| && PinnedOther(children[k], selfId) && (forall j | k < j < |children| :: !PinnedOther(children[j], selfId)) ::
      LastPinnedPosition(children, selfId) == children[k].position
    decreases |children|
  {
    if children != [] {
      var init := children[..|children| - 1];
      LastPinnedPositionSpec(init, selfId);
      assert forall k | 0 <= k < |init| :: init[k] == children[k];
    }
  }

  /** The loop of the pin handler over the category's children. */
  method FindLastPinnedPosition(children: seq<ChildView>, selfId: Snowflake) returns (lastPinnedPosition: int)
    ensures lastPinnedPosition == LastPinnedPosition(children, selfId)
  {
    lastPinnedPosition := -1;
    for i := 0 to |children|
      invariant lastPinnedPosition == LastPinnedPosition(children[..i], selfId)
    {
      var ch := children[i];
      if IsPinnedName(ch.name) && ch.id != selfId {
        lastPinnedPosition := ch.position;
      }
      assert children[..i + 1][..i] == children[..i];
    }
    assert children[..|children|] == children;
  }

  /** `lastPinnedPosition === -1 ? 0 : lastPinnedPosition + 1` */
  function PinTargetPosition(lastPinnedPosition: int): (target: int)
    ensures target == lastPinnedPosition + 1
  {
    if lastPinnedPosition == -1 then 0 else lastPinnedPosition + 1
  }

  /** `Math.max(...children.map(ch => ch.position), -1)`: the largest child position, never below -1. */
  function MaxPosition(children: seq<ChildView>): (m: int)
    ensures m >= -1
    ensures forall k | 0 <= k < |children| :: children[k].position <= m
    ensures m == -1 || exists k | 0 <= k < |children| :: children[k].position == m
    decreases |children|
  {
    if children == [] then -1
    else
      var rest := MaxPosition(children[1..]);
      if children[0].position > rest then children[0].position else rest
  }

  // ---------------------------------------------------------------- the ticket prompt

  const WELCOME_SIGNATURE: JsString := Ascii("Welcome to Ticket Support")

  /** A message as the prompt check reads it: from a bot or not, and the author name of each embed. */
  datatype Message = Message(fromBot: bool, embedAuthors: seq<Option<JsString>>)

  /** A bot message whose first embed is authored "Welcome to Ticket Support". */
  predicate IsPrompt(m: Message) {
    m.fromBot && |m.embedAuthors| > 0 && m.embedAuthors[0] == Some(WELCOME_SIGNATURE)
  }

  /** The prompt is posted iff none of the fetched messages carries its signature. */
  predicate NeedsPrompt(fetched: seq<Message>) {
    forall k | 0 <= k < |fetched| :: !IsPrompt(fetched[k])
  }

  const PROMPT: Message := Message(true, [Some(WELCOME_SIGNATURE)])

  const FETCH_LIMIT: nat := 10

  /** `messages.fetch({ limit })`: the most recent messages, at most `limit` of them. */
  function Latest(history: seq<Message>, limit: nat): (r: seq<Message>)
    ensures |r| == if |history| <= limit then |history| else limit
    ensures r == history[|history| - |r|..]
  {
    if |history| <= limit then history else history[|history| - limit..]
  }

  /** Once posted, the prompt is among the next fetch, so the check does not post it a second time. */
  lemma PromptSeenAfterPosting(history: seq<Message>)
    ensures !NeedsPrompt(Latest(history + [PROMPT], FETCH_LIMIT))
  {
    var r := Latest(history + [PROMPT], FETCH_LIMIT);
    assert r[|r| - 1] == PROMPT;
  }
}
