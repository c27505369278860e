/**
  The ticket handler as a state machine: the configuration cache, the ticket
  record store, the configuration store and the channel world, and one method
  per event handler, per 5-second continuation and per background sweep.
  Every handler either rejects (and then changes nothing) or performs exactly
  the store and channel updates the handler performs.
 */
module TicketHandler {
  import opened JsStrings
  import opened TicketIds
  import opened TicketModel

  /** Why a handler answered with an error reply instead of acting. */
  datatype Rejection =
    | NotConfigured            // configuration missing or disabled
    | ConfigNotFound           // configuration missing
    | AlreadyOpen(channelId: Snowflake)
    | GuildNotFound
    | UserNotFound
    | NotPermitted             // neither staff nor (where admitted) the owner
    | AdminRoleNotSet
    | CooldownActive(nextPing: int)
    | BotLacksManageChannels
    | AlreadyPinned
    | NotPinned
    | TicketDataNotFound
    | NoActiveCategory
    | ChannelUnavailable       // a platform call on a channel that no longer exists fails

  datatype Outcome<+T> = Accepted(value: T) | Rejected(why: Rejection)

  /** The parts of an interaction the handlers read. */
  datatype Interaction = Interaction(guildId: Snowflake, member: Member, channelId: Snowflake)

  /** What the close continuation captured: the guild, the parsed ids, the configuration. */
  datatype CloseTimer = CloseTimer(guildId: Snowflake, userId: Snowflake, channelId: Option<Snowflake>, config: TicketConfig)

  /**
    `guild.channels.fetch(channelId)` with `undefined` or `''` fetches every channel of the
    guild and resolves to their collection rather than to one channel.
   */
  predicate FetchesAll(channelId: Option<Snowflake>) {
    channelId.None? || channelId.value == []
  }

  /** The channel object the delete continuation captured. */
  datatype DeleteTimer = DeleteTimer(channelId: Snowflake)

  /** The channel object the delete-closed continuation captured. */
  datatype DeleteClosedTimer = DeleteClosedTimer(channelId: Snowflake)

  const UNDEFINED: JsString := Ascii("undefined")

  /** A missing modal part interpolates as "undefined". */
  function Interpolated(part: Option<JsString>): JsString {
    if part.Some? then part.value else UNDEFINED
  }

  /** `TicketConfig.findOne(...)` followed by `!config || !config.status`. */
  predicate Enabled(configs: map<Snowflake, TicketConfig>, guildId: Snowflake) {
    guildId in configs && configs[guildId].status
  }

  /** Does the prompt check post in this channel? The guild and the channel resolve, the fetch succeeds and finds no prompt. */
  predicate PromptDue(guilds: set<Snowflake>, channels: map<Snowflake, Channel>, history: map<Snowflake, seq<Message>>,
                      guildId: Snowflake, channelId: Option<Snowflake>) {
    && guildId in guilds
    && ChannelIn(channels, guildId, channelId)
    && channelId.value in history
    && NeedsPrompt(Latest(history[channelId.value], FETCH_LIMIT))
  }

  /** The guilds whose ticket channel setupTicketChannels posts the prompt in. */
  function PromptGuilds(cache: map<Snowflake, TicketConfig>, guilds: set<Snowflake>, channels: map<Snowflake, Channel>,
                        history: map<Snowflake, seq<Message>>): set<Snowflake> {
    set g | g in cache && cache[g].status && Truthy(cache[g].ticketChannelId)
            && PromptDue(guilds, channels, history, g, cache[g].ticketChannelId)
  }

  /** The loop of setupTicketChannels over the cached configurations. */
  method PlanPrompts(cache: map<Snowflake, TicketConfig>, guilds: set<Snowflake>, channels: map<Snowflake, Channel>,
                     history: map<Snowflake, seq<Message>>) returns (posted: set<Snowflake>)
    ensures posted == PromptGuilds(cache, guilds, channels, history)
  {
    posted := {};
    var todo := cache.Keys;
    while todo != {}
      invariant todo <= cache.Keys
      invariant posted == set g | g in cache.Keys - todo && g in PromptGuilds(cache, guilds, channels, history)
      decreases todo
    {
      var g :| g in todo;
      var settings := cache[g];
      if settings.status && Truthy(settings.ticketChannelId) && g in guilds
         && ChannelIn(channels, g, settings.ticketChannelId) && settings.ticketChannelId.value in history
         && NeedsPrompt(Latest(history[settings.ticketChannelId.value], FETCH_LIMIT)) {
        posted := posted + {g};
      }
      todo := todo - {g};
    }
  }

  /** The history after the prompt was posted in the ticket channel of each guild of `posted`. */
  function AfterPosting(cache: map<Snowflake, TicketConfig>, posted: set<Snowflake>, history: map<Snowflake, seq<Message>>): map<Snowflake, seq<Message>> {
    map c | c in history ::
      if exists g | g in posted && g in cache :: cache[g].ticketChannelId == Some(c) then history[c] + [PROMPT] else history[c]
  }

  /** Running the setup check again after it posted finds every prompt and posts nothing. */
  lemma SetupPostsOnce(cache: map<Snowflake, TicketConfig>, guilds: set<Snowflake>, channels: map<Snowflake, Channel>,
                       history: map<Snowflake, seq<Message>>)
    ensures PromptGuilds(cache, guilds, channels, AfterPosting(cache, PromptGuilds(cache, guilds, channels, history), history)) == {}
  {
    var posted := PromptGuilds(cache, guilds, channels, history);
    var after := AfterPosting(cache, posted, history);
    forall g | g in cache && cache[g].status && Truthy(cache[g].ticketChannelId)
      ensures !PromptDue(guilds, channels, after, g, cache[g].ticketChannelId)
    {
      var c := cache[g].ticketChannelId.value;
      if g in guilds && ChannelIn(channels, g, cache[g].ticketChannelId) && c in history {
        if g in posted {
          assert after[c] == history[c] + [PROMPT];
          PromptSeenAfterPosting(history[c]);
        } else {
          assert !NeedsPrompt(Latest(history[c], FETCH_LIMIT));
          if exists g' | g' in posted && g' in cache :: cache[g'].ticketChannelId == Some(c) {
            PromptSeenAfterPosting(history[c]);
          } else {
            assert after[c] == history[c];
          }
        }
      }
    }
  }

  class TicketBot {
    /** `configCache` and `lastConfigLoad`, module state of the handler. */
    var configCache: map<Snowflake, TicketConfig>
    var lastConfigLoad: Option<int>
    /** The TicketConfig collection, by serverId. */
    var configStore: map<Snowflake, TicketConfig>
    /** The TicketUserData collection, by `_id`, and the next fresh `_id`. */
    var tickets: map<RecordId, Ticket>
    var nextRecordId: RecordId
    /** The guilds in the client's cache and every channel of those guilds, by id. */
    var guilds: set<Snowflake>
    var channels: map<Snowflake, Channel>

    /** Fresh ids lie above every stored one, and filters by owner or by channel match at most one record. */
    ghost predicate Valid()
      reads this
    {
      && (forall id | id in tickets :: id < nextRecordId)
      && OnePerOwner(tickets)
      && OnePerChannel(tickets)
    }

    constructor (configStore: map<Snowflake, TicketConfig>, tickets: map<RecordId, Ticket>, nextRecordId: RecordId,
                 guilds: set<Snowflake>, channels: map<Snowflake, Channel>)
      requires forall id | id in tickets :: id < nextRecordId
      requires OnePerOwner(tickets) && OnePerChannel(tickets)
      ensures Valid()
      ensures this.configCache == map[] && this.lastConfigLoad == None
      ensures this.configStore == configStore && this.tickets == tickets && this.nextRecordId == nextRecordId
      ensures this.guilds == guilds && this.channels == channels
    {
      this.configCache := map[];
      this.lastConfigLoad := None;
      this.configStore := configStore;
      this.tickets := tickets;
      this.nextRecordId := nextRecordId;
      this.guilds := guilds;
      this.channels := channels;
    }

    // ------------------------------------------------------------ configuration cache

    /** loadConfig: replace the whole cache from the store, or keep everything when the query fails. */
    method LoadConfig(now: int, storeAvailable: bool) returns (cache: map<Snowflake, TicketConfig>)
      modifies this`configCache, this`lastConfigLoad
      ensures storeAvailable ==> configCache == configStore && lastConfigLoad == Some(now)
      ensures !storeAvailable ==> configCache == old(configCache) && lastConfigLoad == old(lastConfigLoad)
      ensures cache == configCache
    {
      if storeAvailable {
        configCache := configStore;
        lastConfigLoad := Some(now);
      }
      cache := configCache;
    }

    /** getConfig: reload exactly when NeedsReload says so. */
    method GetConfig(force: bool, now: int, storeAvailable: bool) returns (cache: map<Snowflake, TicketConfig>)
      modifies this`configCache, this`lastConfigLoad
      ensures NeedsReload(force, old(lastConfigLoad), now) && storeAvailable ==>
        configCache == configStore && lastConfigLoad == Some(now)
      ensures !(NeedsReload(force, old(lastConfigLoad), now) && storeAvailable) ==>
        configCache == old(configCache) && lastConfigLoad == old(lastConfigLoad)
      ensures cache == configCache
    {
      if force || lastConfigLoad.None? || lastConfigLoad.value == 0 || now - lastConfigLoad.value > CONFIG_REFRESH_INTERVAL {
        cache := LoadConfig(now, storeAvailable);
      }
      cache := configCache;
    }

    /**
      reloadTicketConfig: refresh one cache entry from the store; with no stored
      configuration nothing changes. Returns whether the prompt is posted.
     */
    method ReloadTicketConfig(serverId: Snowflake, now: int, history: map<Snowflake, seq<Message>>) returns (postPrompt: bool)
      modifies this`configCache, this`lastConfigLoad
      ensures serverId !in configStore ==> configCache == old(configCache) && lastConfigLoad == old(lastConfigLoad) && !postPrompt
      ensures serverId in configStore ==>
        && configCache == old(configCache)[serverId := configStore[serverId]]
        && lastConfigLoad == Some(now)
        && (postPrompt <==> PromptDue(guilds, channels, history, serverId, configStore[serverId].ticketChannelId))
    {
      if serverId !in configStore {
        return false;
      }
      var updated := configStore[serverId];
      configCache := configCache[serverId := updated];
      lastConfigLoad := Some(now);
      postPrompt := serverId in guilds && ChannelIn(channels, serverId, updated.ticketChannelId)
        && updated.ticketChannelId.value in history
        && NeedsPrompt(Latest(history[updated.ticketChannelId.value], FETCH_LIMIT));
    }

    /** setupTicketChannels: a forced reload, then the prompt check for every enabled cached configuration. */
    method SetupTicketChannels(now: int, storeAvailable: bool, history: map<Snowflake, seq<Message>>) returns (posted: set<Snowflake>)
      modifies this`configCache, this`lastConfigLoad
      ensures storeAvailable ==> configCache == configStore && lastConfigLoad == Some(now)
      ensures !storeAvailable ==> configCache == old(configCache) && lastConfigLoad == old(lastConfigLoad)
      ensures posted == PromptGuilds(configCache, guilds, channels, history)
    {
      var cache := GetConfig(true, now, storeAvailable);
      posted := PlanPrompts(cache, guilds, channels, history);
    }

    /** guildDelete: drop the guild's configuration and records, force a reload and drop the cache entry. */
    method GuildDelete(guildId: Snowflake, now: int, storeAvailable: bool)
      requires Valid()
      modifies this`configStore, this`tickets, this`configCache, this`lastConfigLoad
      ensures Valid()
      ensures configStore == old(configStore) - {guildId}
      ensures tickets == map id | id in old(tickets) && old(tickets)[id].guildId != guildId :: old(tickets)[id]
      ensures storeAvailable ==> configCache == configStore && lastConfigLoad == Some(now)
      ensures !storeAvailable ==> configCache == old(configCache) - {guildId} && lastConfigLoad == old(lastConfigLoad)
      ensures guildId !in configCache
    {
      configStore := configStore - {guildId};
      ghost var before := tickets;
      tickets := map id | id in tickets && tickets[id].guildId != guildId :: tickets[id];
      SubMapKeepsUnique(tickets, before);
      var cache := GetConfig(true, now, storeAvailable);
      configCache := configCache - {guildId};
    }

    // ------------------------------------------------------------ creation

    /**
      The existing-ticket step of both creation handlers: a record of (user, guild)
      whose channel resolves blocks; one whose channel is gone is deleted.
     */
    method ClearStaleOwnerRecord(userId: Snowflake, guildId: Snowflake) returns (open: Option<Snowflake>)
      requires Valid()
      modifies this`tickets
      ensures Valid()
      ensures BlockedByExisting(old(tickets), channels, userId, guildId) ==>
        open.Some? && ChannelIn(channels, guildId, open) && tickets == old(tickets)
      ensures !BlockedByExisting(old(tickets), channels, userId, guildId) ==>
        open.None? && tickets == old(tickets) - OwnerRecords(old(tickets), userId, guildId)
    {
      open := None;
      if id :| id in tickets && tickets[id].userId == userId && tickets[id].guildId == guildId {
        OnePerOwnerAtMostOne(tickets, userId, guildId, id);
        var existing := tickets[id];
        if ChannelIn(channels, guildId, existing.channelId) {
          return existing.channelId;
        }
        ghost var before := tickets;
        tickets := tickets - {id};
        SubMapKeepsUnique(tickets, before);
      }
    }

    /** handleTicketCreation (select menu): the guards, then the modal id to show. */
    method HandleTicketCreation(it: Interaction, ticketType: JsString) returns (r: Outcome<JsString>)
      requires Valid()
      modifies this`tickets
      ensures Valid()
      ensures !Enabled(configStore, it.guildId) ==> r == Rejected(NotConfigured) && tickets == old(tickets)
      ensures Enabled(configStore, it.guildId) && BlockedByExisting(old(tickets), channels, it.member.id, it.guildId) ==>
        r.Rejected? && r.why.AlreadyOpen? && tickets == old(tickets)
      ensures Enabled(configStore, it.guildId) && !BlockedByExisting(old(tickets), channels, it.member.id, it.guildId) ==>
        && r == Accepted(ModalId(it.guildId, ticketType, it.member.id))
        && tickets == old(tickets) - OwnerRecords(old(tickets), it.member.id, it.guildId)
    {
      if !(it.guildId in configStore && configStore[it.guildId].status) {
        return Rejected(NotConfigured);
      }
      var open := ClearStaleOwnerRecord(it.member.id, it.guildId);
      if open.Some? {
        return Rejected(AlreadyOpen(open.value));
      }
      r := Accepted(ModalId(it.guildId, ticketType, it.member.id));
    }

    /**
      handleTicketModalSubmit: parse the modal id, check guild, user, configuration and
      existing ticket, then create the channel and exactly one record. `usernames` is the
      user directory; `newChannelId` and `newPosition` are what the platform assigns.
     */
    method HandleTicketModalSubmit(customId: JsString, reasonInput: JsString, usernames: map<Snowflake, JsString>,
                                   newChannelId: Snowflake, newPosition: int) returns (r: Outcome<JsString>)
      requires Valid()
      requires newChannelId !in channels && ChannelRecords(tickets, newChannelId) == {}
      modifies this`tickets, this`nextRecordId, this`channels
      ensures Valid()
      ensures var f := ParseModalId(customId);
        (f.guildId.None? || f.guildId.value !in guilds) ==>
          r == Rejected(GuildNotFound) && unchanged(this)
      ensures var f := ParseModalId(customId);
        (f.guildId.Some? && f.guildId.value in guilds && (f.userId.None? || f.userId.value !in usernames)) ==>
          r == Rejected(UserNotFound) && unchanged(this)
      ensures var f := ParseModalId(customId);
        (f.guildId.Some? && f.guildId.value in guilds && f.userId.Some? && f.userId.value in usernames
         && !Enabled(configStore, f.guildId.value)) ==>
          r == Rejected(NotConfigured) && unchanged(this)
      ensures var f := ParseModalId(customId);
        (f.guildId.Some? && f.guildId.value in guilds && f.userId.Some? && f.userId.value in usernames
         && Enabled(configStore, f.guildId.value)
         && BlockedByExisting(old(tickets), old(channels), f.userId.value, f.guildId.value)) ==>
          r.Rejected? && r.why.AlreadyOpen? && unchanged(this)
      ensures var f := ParseModalId(customId);
        (f.guildId.Some? && f.guildId.value in guilds && f.userId.Some? && f.userId.value in usernames
         && Enabled(configStore, f.guildId.value)
         && !BlockedByExisting(old(tickets), old(channels), f.userId.value, f.guildId.value)) ==>
          var g, u := f.guildId.value, f.userId.value;
          var cfg := configStore[g];
          && r == Accepted(TicketId(u, newChannelId))
          && tickets == (old(tickets) - OwnerRecords(old(tickets), u, g))[old(nextRecordId) :=
               Ticket(u, g, Some(newChannelId), Some(Trim(reasonInput)), None, None, None, None)]
          && nextRecordId == old(nextRecordId) + 1
          && channels == old(channels)[newChannelId :=
               Channel(g, if Truthy(cfg.categoryId) then cfg.categoryId else None,
                       Interpolated(f.ticketType) + [DASH] + usernames[u], newPosition, map[u := true])]
    {
      var f := ParseModalId(customId);
      var reason := Trim(reasonInput);
      if f.guildId.None? || f.guildId.value !in guilds {
        return Rejected(GuildNotFound);
      }
      var g := f.guildId.value;
      if f.userId.None? || f.userId.value !in usernames {
        return Rejected(UserNotFound);
      }
      var u := f.userId.value;
      if !(g in configStore && configStore[g].status) {
        return Rejected(NotConfigured);
      }
      var cfg := configStore[g];
      var open := ClearStaleOwnerRecord(u, g);
      if open.Some? {
        return Rejected(AlreadyOpen(open.value));
      }
      assert forall id | id in tickets :: id in old(tickets) && tickets[id] == old(tickets)[id];
      assert ChannelRecords(tickets, newChannelId) == {};
      var parent := if Truthy(cfg.categoryId) then cfg.categoryId else None;
      channels := channels[newChannelId := Channel(g, parent, Interpolated(f.ticketType) + [DASH] + usernames[u], newPosition, map[u := true])];
      var record := Ticket(u, g, Some(newChannelId), Some(reason), None, None, None, None);
      AddRecordKeepsUnique(tickets, nextRecordId, record);
      tickets := tickets[nextRecordId := record];
      nextRecordId := nextRecordId + 1;
      r := Accepted(TicketId(u, newChannelId));
    }

    // ------------------------------------------------------------ close and reopen

    /** handleTicketClose: the configuration must exist; the parsed owner or staff may close. */
    method HandleTicketClose(it: Interaction, customId: JsString) returns (r: Outcome<CloseTimer>)
      ensures it.guildId !in configStore ==> r == Rejected(ConfigNotFound)
      ensures it.guildId in configStore ==>
        var target := ParseCloseTarget(customId);
        var cfg := configStore[it.guildId];
        && (r.Rejected? <==> target.userId != it.member.id && !IsStaff(cfg, it.member))
        && (r.Rejected? ==> r.why == NotPermitted)
        && (r.Accepted? ==> r.value == CloseTimer(it.guildId, target.userId, target.channelId, cfg))
    {
      var target := ParseCloseTarget(customId);
      var isTicketOwner := target.userId == it.member.id;
      if it.guildId !in configStore {
        return Rejected(ConfigNotFound);
      }
      var cfg := configStore[it.guildId];
      var isAdmin := IsStaff(cfg, it.member);
      if !isTicketOwner && !isAdmin {
        return Rejected(NotPermitted);
      }
      r := Accepted(CloseTimer(it.guildId, target.userId, target.channelId, cfg));
    }

    /**
      The close continuation: with the channel present and an archive category it moves
      the channel, takes the owner's send permission (if the owner has an overwrite) and
      stamps closedAt; without an archive category it deletes channel and record; with
      the channel gone it does nothing. A button id without a channel part makes the fetch
      return the whole channel collection: moving it throws (caught, nothing changes), while
      `delete()` on it deletes nothing and the owner's record is deleted after it.
     */
    method FireCloseTimer(t: CloseTimer, now: int)
      requires Valid()
      modifies this`channels, this`tickets
      ensures Valid()
      ensures FetchesAll(t.channelId) && Truthy(t.config.closedTicketsCategoryId) ==> channels == old(channels) && tickets == old(tickets)
      ensures FetchesAll(t.channelId) && !Truthy(t.config.closedTicketsCategoryId) ==>
        channels == old(channels) && tickets == old(tickets) - OwnerRecords(old(tickets), t.userId, t.guildId)
      ensures !FetchesAll(t.channelId) && !ChannelIn(old(channels), t.guildId, t.channelId) ==> channels == old(channels) && tickets == old(tickets)
      ensures !FetchesAll(t.channelId) && ChannelIn(old(channels), t.guildId, t.channelId) && Truthy(t.config.closedTicketsCategoryId) ==>
        var c := t.channelId.value;
        var ch := old(channels)[c];
        && channels == old(channels)[c := ch.(parentId := t.config.closedTicketsCategoryId,
             sendAllowed := if t.userId in ch.sendAllowed then ch.sendAllowed[t.userId := false] else ch.sendAllowed)]
        && (OwnerRecords(old(tickets), t.userId, t.guildId) == {} ==> tickets == old(tickets))
        && (forall id | id in OwnerRecords(old(tickets), t.userId, t.guildId) ::
              tickets == old(tickets)[id := old(tickets)[id].(closedAt := Some(now))])
      ensures !FetchesAll(t.channelId) && ChannelIn(old(channels), t.guildId, t.channelId) && !Truthy(t.config.closedTicketsCategoryId) ==>
        && channels == old(channels) - {t.channelId.value}
        && tickets == old(tickets) - OwnerRecords(old(tickets), t.userId, t.guildId)
    {
      if FetchesAll(t.channelId) {
        if !Truthy(t.config.closedTicketsCategoryId) {
          DeleteOwnerRecord(t.userId, t.guildId);
        }
        return;
      }
      if !ChannelIn(channels, t.guildId, t.channelId) {
        return;
      }
      var c := t.channelId.value;
      var ch := channels[c];
      if Truthy(t.config.closedTicketsCategoryId) {
        var send := if t.userId in ch.sendAllowed then ch.sendAllowed[t.userId := false] else ch.sendAllowed;
        channels := channels[c := ch.(parentId := t.config.closedTicketsCategoryId, sendAllowed := send)];
        if id :| id in tickets && tickets[id].userId == t.userId && tickets[id].guildId == t.guildId {
          OnePerOwnerAtMostOne(tickets, t.userId, t.guildId, id);
          tickets := tickets[id := tickets[id].(closedAt := Some(now))];
        }
      } else {
        channels := channels - {c};
        DeleteOwnerRecord(t.userId, t.guildId);
      }
    }

    /** `TicketUserData.deleteOne({ userId, guildId })`. */
    method DeleteOwnerRecord(userId: Snowflake, guildId: Snowflake)
      requires Valid()
      modifies this`tickets
      ensures Valid()
      ensures tickets == old(tickets) - OwnerRecords(old(tickets), userId, guildId)
    {
      if id :| id in tickets && tickets[id].userId == userId && tickets[id].guildId == guildId {
        OnePerOwnerAtMostOne(tickets, userId, guildId, id);
        ghost var before := tickets;
        tickets := tickets - {id};
        SubMapKeepsUnique(tickets, before);
      }
    }

    /**
      handleReopenClosedTicket: the configuration and the channel's record must exist, the
      member must be staff or the record's owner, and an active category must be configured.
      Then the channel moves back, the owner may send again, and the record is reopened.
     */
    method HandleReopenClosedTicket(it: Interaction, now: int) returns (r: Outcome<()>)
      requires Valid()
      modifies this`channels, this`tickets
      ensures Valid()
      ensures r.Rejected? ==> channels == old(channels) && tickets == old(tickets)
      ensures it.guildId !in configStore ==> r == Rejected(ConfigNotFound)
      ensures it.guildId in configStore && ChannelRecords(old(tickets), it.channelId) == {} ==> r == Rejected(TicketDataNotFound)
      ensures it.guildId in configStore ==>
        var cfg := configStore[it.guildId];
        forall id | id in ChannelRecords(old(tickets), it.channelId) ::
          var rec := old(tickets)[id];
          if !IsStaff(cfg, it.member) && rec.userId != it.member.id then r == Rejected(NotPermitted)
          else if !Truthy(cfg.categoryId) then r == Rejected(NoActiveCategory)
          else if it.channelId !in old(channels) then r == Rejected(ChannelUnavailable)
          else
            var ch := old(channels)[it.channelId];
            && r == Accepted(())
            && channels == old(channels)[it.channelId := ch.(parentId := cfg.categoryId, sendAllowed := ch.sendAllowed[rec.userId := true])]
            && tickets == old(tickets)[id := rec.(closedAt := None, lastActivityTime := Some(now))]
    {
      if it.guildId !in configStore {
        return Rejected(ConfigNotFound);
      }
      var cfg := configStore[it.guildId];
      var isAdmin := IsStaff(cfg, it.member);
      if id :| id in tickets && tickets[id].channelId == Some(it.channelId) {
        OnePerChannelAtMostOne(tickets, it.channelId, id);
        var rec := tickets[id];
        if !isAdmin && rec.userId != it.member.id {
          return Rejected(NotPermitted);
        }
        if !Truthy(cfg.categoryId) {
          return Rejected(NoActiveCategory);
        }
        if it.channelId !in channels {
          return Rejected(ChannelUnavailable);
        }
        var ch := channels[it.channelId];
        channels := channels[it.channelId := ch.(parentId := cfg.categoryId, sendAllowed := ch.sendAllowed[rec.userId := true])];
        tickets := tickets[id := rec.(closedAt := None, lastActivityTime := Some(now))];
        r := Accepted(());
      } else {
        r := Rejected(TicketDataNotFound);
      }
    }

    // ------------------------------------------------------------ staff-only actions

    /** A staff-only handler's guard: the configuration must exist and the member must be staff. */
    function StaffGuard(it: Interaction): (g: Option<Rejection>)
      reads this
      ensures g == None <==> it.guildId in configStore && IsStaff(configStore[it.guildId], it.member)
      ensures g.Some? ==> (it.guildId !in configStore <==> g.value == ConfigNotFound) && (g.value == ConfigNotFound || g.value == NotPermitted)
    {
      if it.guildId !in configStore then Some(ConfigNotFound)
      else if !IsStaff(configStore[it.guildId], it.member) then Some(NotPermitted)
      else None
    }

    /** handleTicketClaim: staff only; it only posts a message. */
    method HandleTicketClaim(it: Interaction) returns (r: Outcome<()>)
      ensures r.Rejected? <==> StaffGuard(it).Some?
      ensures r.Rejected? ==> r.why == StaffGuard(it).value
    {
      var guard := StaffGuard(it);
      if guard.Some? {
        return Rejected(guard.value);
      }
      r := Accepted(());
    }

    /** handleTicketDelete: staff only; the channel is deleted 5 seconds later. */
    method HandleTicketDelete(it: Interaction) returns (r: Outcome<DeleteTimer>)
      ensures r.Rejected? <==> StaffGuard(it).Some?
      ensures r.Rejected? ==> r.why == StaffGuard(it).value
      ensures r.Accepted? ==> r.value == DeleteTimer(it.channelId)
    {
      var guard := StaffGuard(it);
      if guard.Some? {
        return Rejected(guard.value);
      }
      r := Accepted(DeleteTimer(it.channelId));
    }

    /** The delete continuation removes the channel; the record is left for the orphan sweep. */
    method FireDeleteTimer(t: DeleteTimer)
      modifies this`channels
      ensures channels == old(channels) - {t.channelId}
    {
      channels := channels - {t.channelId};
    }

    /** handleDeleteClosedTicket: staff only; record and channel are deleted 5 seconds later. */
    method HandleDeleteClosedTicket(it: Interaction) returns (r: Outcome<DeleteClosedTimer>)
      ensures r.Rejected? <==> StaffGuard(it).Some?
      ensures r.Rejected? ==> r.why == StaffGuard(it).value
      ensures r.Accepted? ==> r.value == DeleteClosedTimer(it.channelId)
    {
      var guard := StaffGuard(it);
      if guard.Some? {
        return Rejected(guard.value);
      }
      r := Accepted(DeleteClosedTimer(it.channelId));
    }

    /** The delete-closed continuation removes the channel's record, then the channel. */
    method FireDeleteClosedTimer(t: DeleteClosedTimer)
      requires Valid()
      modifies this`channels, this`tickets
      ensures Valid()
      ensures tickets == old(tickets) - ChannelRecords(old(tickets), t.channelId)
      ensures channels == old(channels) - {t.channelId}
    {
      if id :| id in tickets && tickets[id].channelId == Some(t.channelId) {
        OnePerChannelAtMostOne(tickets, t.channelId, id);
        ghost var before := tickets;
        tickets := tickets - {id};
        SubMapKeepsUnique(tickets, before);
      }
      channels := channels - {t.channelId};
    }

    // ------------------------------------------------------------ staff ping

    /**
      handleStaffPing: an admin role must be configured and the member's record must not
      be on cooldown; then `lastPing` is upserted for (member, guild) and nothing else changes.
     */
    method HandleStaffPing(it: Interaction, now: int) returns (r: Outcome<()>)
      requires Valid()
      modifies this`tickets, this`nextRecordId
      ensures Valid()
      ensures r.Rejected? ==> tickets == old(tickets) && nextRecordId == old(nextRecordId)
      ensures !(it.guildId in configStore && Truthy(configStore[it.guildId].adminRoleId)) ==> r == Rejected(AdminRoleNotSet)
      ensures it.guildId in configStore && Truthy(configStore[it.guildId].adminRoleId) ==>
        && (OwnerRecords(old(tickets), it.member.id, it.guildId) == {} ==>
              && r == Accepted(())
              && tickets == old(tickets)[old(nextRecordId) := Ticket(it.member.id, it.guildId, None, None, None, None, Some(now), None)]
              && nextRecordId == old(nextRecordId) + 1)
        && (forall id | id in OwnerRecords(old(tickets), it.member.id, it.guildId) ::
              var rec := old(tickets)[id];
              if PingOnCooldown(rec.lastPing, now) then r == Rejected(CooldownActive(rec.lastPing.value + STAFF_PING_COOLDOWN))
              else r == Accepted(()) && tickets == old(tickets)[id := rec.(lastPing := Some(now))] && nextRecordId == old(nextRecordId))
    {
      if !(it.guildId in configStore && Truthy(configStore[it.guildId].adminRoleId)) {
        return Rejected(AdminRoleNotSet);
      }
      var u, g := it.member.id, it.guildId;
      if id :| id in tickets && tickets[id].userId == u && tickets[id].guildId == g {
        OnePerOwnerAtMostOne(tickets, u, g, id);
        var rec := tickets[id];
        if rec.lastPing.Some? && now - rec.lastPing.value < STAFF_PING_COOLDOWN {
          return Rejected(CooldownActive(rec.lastPing.value + STAFF_PING_COOLDOWN));
        }
        tickets := tickets[id := rec.(lastPing := Some(now))];
      } else {
        tickets := tickets[nextRecordId := Ticket(u, g, None, None, None, None, Some(now), None)];
        nextRecordId := nextRecordId + 1;
      }
      r := Accepted(());
    }

    // ------------------------------------------------------------ pin and unpin

    /** The staff guard, then the bot's ManageChannels check shared by pin and unpin. */
    function PinGuard(it: Interaction, botCanManage: bool): (g: Option<Rejection>)
      reads this
      ensures g == None <==> StaffGuard(it).None? && botCanManage
      ensures StaffGuard(it).Some? ==> g == StaffGuard(it)
    {
      if StaffGuard(it).Some? then StaffGuard(it)
      else if !botCanManage then Some(BotLacksManageChannels)
      else None
    }

    /**
      handleTicketPin: prepend the marker to an unpinned name, move the channel just below
      the last other pinned child of its category (in `cacheOrder`, the cache's iteration
      order), and save the position it had before on the channel's record.
     */
    method HandleTicketPin(it: Interaction, botCanManage: bool, cacheOrder: seq<Snowflake>) returns (r: Outcome<()>)
      requires Valid()
      modifies this`channels, this`tickets
      ensures Valid()
      ensures r.Rejected? ==> channels == old(channels) && tickets == old(tickets)
      ensures PinGuard(it, botCanManage).Some? ==> r == Rejected(PinGuard(it, botCanManage).value)
      ensures PinGuard(it, botCanManage).None? && it.channelId !in old(channels) ==> r == Rejected(ChannelUnavailable)
      ensures PinGuard(it, botCanManage).None? && it.channelId in old(channels) ==>
        var c := it.channelId;
        var ch := old(channels)[c];
        if IsPinnedName(ch.name) then r == Rejected(AlreadyPinned)
        else
          var renamed := old(channels)[c := ch.(name := PinnedName(ch.name))];
          && r == Accepted(())
          && channels == renamed[c := renamed[c].(position :=
               if ch.parentId.Some? then PinTargetPosition(LastPinnedPosition(Children(renamed, cacheOrder, ch.parentId.value), c))
               else ch.position)]
          && (ChannelRecords(old(tickets), c) == {} ==> tickets == old(tickets))
          && (forall id | id in ChannelRecords(old(tickets), c) ::
                tickets == old(tickets)[id := old(tickets)[id].(originalPosition := Some(ch.position))])
    {
      var guard := PinGuard(it, botCanManage);
      if guard.Some? {
        return Rejected(guard.value);
      }
      var c := it.channelId;
      if c !in channels {
        return Rejected(ChannelUnavailable);
      }
      var currentName := channels[c].name;
      if IsPinnedName(currentName) {
        return Rejected(AlreadyPinned);
      }
      channels := channels[c := channels[c].(name := PinnedName(currentName))];
      var originalPosition := channels[c].position;
      if channels[c].parentId.Some? {
        var children := Children(channels, cacheOrder, channels[c].parentId.value);
        var lastPinnedPosition := FindLastPinnedPosition(children, c);
        channels := channels[c := channels[c].(position := PinTargetPosition(lastPinnedPosition))];
      }
      if id :| id in tickets && tickets[id].channelId == Some(c) {
        OnePerChannelAtMostOne(tickets, c, id);
        tickets := tickets[id := tickets[id].(originalPosition := Some(originalPosition))];
      }
      r := Accepted(());
    }

    /**
      handleTicketUnpin: rename a pinned name with `slice(1)`, then restore and clear the saved
      position, or with nothing saved move the channel past the largest position of its category.
     */
    method HandleTicketUnpin(it: Interaction, botCanManage: bool, cacheOrder: seq<Snowflake>) returns (r: Outcome<()>)
      requires Valid()
      modifies this`channels, this`tickets
      ensures Valid()
      ensures r.Rejected? ==> channels == old(channels) && tickets == old(tickets)
      ensures PinGuard(it, botCanManage).Some? ==> r == Rejected(PinGuard(it, botCanManage).value)
      ensures PinGuard(it, botCanManage).None? && it.channelId !in old(channels) ==> r == Rejected(ChannelUnavailable)
      ensures PinGuard(it, botCanManage).None? && it.channelId in old(channels) ==>
        var c := it.channelId;
        var ch := old(channels)[c];
        if !IsPinnedName(ch.name) then r == Rejected(NotPinned)
        else
          var renamed := old(channels)[c := ch.(name := UnpinnedName(ch.name))];
          && r == Accepted(())
          && (!HasSavedPosition(old(tickets), c) ==>
                && tickets == old(tickets)
                && channels == renamed[c := renamed[c].(position :=
                     if ch.parentId.Some? then MaxPosition(Children(renamed, cacheOrder, ch.parentId.value)) + 1
                     else ch.position)])
          && (forall id | id in ChannelRecords(old(tickets), c) && old(tickets)[id].originalPosition.Some? ::
                && channels == renamed[c := renamed[c].(position := old(tickets)[id].originalPosition.value)]
                && tickets == old(tickets)[id := old(tickets)[id].(originalPosition := None)])
    {
      var guard := PinGuard(it, botCanManage);
      if guard.Some? {
        return Rejected(guard.value);
      }
      var c := it.channelId;
      if c !in channels {
        return Rejected(ChannelUnavailable);
      }
      var currentName := channels[c].name;
      if !IsPinnedName(currentName) {
        return Rejected(NotPinned);
      }
      channels := channels[c := channels[c].(name := UnpinnedName(currentName))];
      if id :| id in tickets && tickets[id].channelId == Some(c) && tickets[id].originalPosition.Some? {
        assert id in ChannelRecords(tickets, c);
        OnePerChannelAtMostOne(tickets, c, id);
        channels := channels[c := channels[c].(position := tickets[id].originalPosition.value)];
        tickets := tickets[id := tickets[id].(originalPosition := None)];
      } else if channels[c].parentId.Some? {
        var children := Children(channels, cacheOrder, channels[c].parentId.value);
        var maxPosition := MaxPosition(children);
        channels := channels[c := channels[c].(position := maxPosition + 1)];
      }
      r := Accepted(());
    }

    // ------------------------------------------------------------ activity tracking

    /** messageCreate: a non-bot message by the owner of the channel's record refreshes its activity time. */
    method OnMessageCreate(channelId: Snowflake, authorId: Snowflake, authorIsBot: bool, now: int)
      requires Valid()
      modifies this`tickets
      ensures Valid()
      ensures ChannelRecords(old(tickets), channelId) == {} ==> tickets == old(tickets)
      ensures forall id | id in ChannelRecords(old(tickets), channelId) ::
        tickets == if !authorIsBot && old(tickets)[id].userId == authorId
                   then old(tickets)[id := old(tickets)[id].(lastActivityTime := Some(now))]
                   else old(tickets)
    {
      if authorIsBot {
        return;
      }
      if id :| id in tickets && tickets[id].channelId == Some(channelId) {
        OnePerChannelAtMostOne(tickets, channelId, id);
        if tickets[id].userId == authorId {
          tickets := tickets[id := tickets[id].(lastActivityTime := Some(now))];
        }
      }
    }

    // ------------------------------------------------------------ background sweeps

    /** cleanupStaleTickets: one pass over every record, deleting the orphans. */
    method CleanupStaleTickets()
      requires Valid()
      modifies this`tickets
      ensures Valid()
      ensures tickets == OrphanSweep(old(tickets), guilds, channels)
    {
      var allTickets := tickets;
      var todo := allTickets.Keys;
      while todo != {}
        invariant todo <= allTickets.Keys
        invariant tickets == map id | id in allTickets && (id in todo || !Orphaned(allTickets[id], guilds, channels)) :: allTickets[id]
        decreases todo
      {
        var id :| id in todo;
        var ticket := allTickets[id];
        if ticket.guildId in guilds && !ChannelIn(channels, ticket.guildId, ticket.channelId) {
          tickets := tickets - {id};
        }
        todo := todo - {id};
      }
      SubMapKeepsUnique(tickets, allTickets);
    }

    /**
      autoCloseInactiveTickets: one pass over the records inactive for more than 72 hours.
      Orphans are deleted; a record whose configuration resolves gets a close continuation
      and is deleted at once; a missing guild or configuration keeps the record.
     */
    method AutoCloseInactiveTickets(now: int) returns (timers: set<AutoCloseTimer>)
      requires Valid()
      modifies this`tickets
      ensures Valid()
      ensures tickets == AutoCloseSweep(old(tickets), now, guilds, channels, configStore)
      ensures timers == AutoCloseTimers(old(tickets), now, guilds, channels, configStore)
    {
      var all := tickets;
      var inactiveTickets := set id | id in all && Inactive(all[id], now);
      var todo := inactiveTickets;
      timers := {};
      while todo != {}
        invariant todo <= inactiveTickets
        invariant tickets == AutoCloseSweepAmong(all, inactiveTickets - todo, now, guilds, channels, configStore)
        invariant timers == AutoCloseTimersAmong(all, inactiveTickets - todo, now, guilds, channels, configStore)
        decreases todo
      {
        var id :| id in todo;
        var ticket := all[id];
        AutoCloseAmongStep(all, inactiveTickets - todo, id, now, guilds, channels, configStore);
        if ticket.guildId in guilds {
          if !ChannelIn(channels, ticket.guildId, ticket.channelId) {
            tickets := tickets - {id};
          } else if ticket.guildId in configStore {
            timers := timers + {AutoCloseTimer(id, ticket.userId, ticket.channelId.value, configStore[ticket.guildId])};
            tickets := tickets - {id};
          }
        }
        assert inactiveTickets - (todo - {id}) == (inactiveTickets - todo) + {id};
        todo := todo - {id};
      }
      AutoCloseAmongInactive(all, now, guilds, channels, configStore);
      SubMapKeepsUnique(tickets, all);
    }

    /**
      The auto-close continuation, on the channel object it captured: with an archive category
      the channel is moved, the owner may no longer send, and closedAt is stamped on the record
      if it still exists; without one the channel is deleted.
     */
    method FireAutoCloseTimer(t: AutoCloseTimer, now: int)
      requires Valid()
      modifies this`channels, this`tickets
      ensures Valid()
      ensures t.channelId !in old(channels) ==> channels == old(channels) && tickets == old(tickets)
      ensures t.channelId in old(channels) && Truthy(t.config.closedTicketsCategoryId) ==>
        var ch := old(channels)[t.channelId];
        && channels == old(channels)[t.channelId := ch.(parentId := t.config.closedTicketsCategoryId, sendAllowed := ch.sendAllowed[t.userId := false])]
        && tickets == if t.recordId in old(tickets) then old(tickets)[t.recordId := old(tickets)[t.recordId].(closedAt := Some(now))] else old(tickets)
      ensures t.channelId in old(channels) && !Truthy(t.config.closedTicketsCategoryId) ==>
        channels == old(channels) - {t.channelId} && tickets == old(tickets)
    {
      if t.channelId !in channels {
        return;
      }
      var ch := channels[t.channelId];
      if Truthy(t.config.closedTicketsCategoryId) {
        channels := channels[t.channelId := ch.(parentId := t.config.closedTicketsCategoryId, sendAllowed := ch.sendAllowed[t.userId := false])];
        if t.recordId in tickets {
          tickets := tickets[t.recordId := tickets[t.recordId].(closedAt := Some(now))];
        }
      } else {
        channels := channels - {t.channelId};
      }
    }

    /**
      The inactivity sweep as intended: it selects only tickets that are not closed yet, and a
      record that gets a continuation stays in the store until that continuation stamps closedAt.
     */
    method AutoCloseInactiveTicketsIntended(now: int) returns (timers: set<AutoCloseTimer>)
      requires Valid()
      modifies this`tickets
      ensures Valid()
      ensures tickets == AutoCloseSweepIntended(old(tickets), now, guilds, channels)
      ensures timers == AutoCloseTimersIntended(old(tickets), now, guilds, channels, configStore)
      ensures forall t | t in timers :: t.recordId in tickets && tickets[t.recordId].channelId == Some(t.channelId)
    {
      var all := tickets;
      var selected := set id | id in all && OpenAndInactive(all[id], now);
      var todo := selected;
      timers := {};
      while todo != {}
        invariant todo <= selected
        invariant tickets == AutoCloseSweepIntendedAmong(all, selected - todo, now, guilds, channels)
        invariant timers == AutoCloseTimersIntendedAmong(all, selected - todo, now, guilds, channels, configStore)
        decreases todo
      {
        var id :| id in todo;
        var ticket := all[id];
        AutoCloseIntendedAmongStep(all, selected - todo, id, now, guilds, channels, configStore);
        if ticket.guildId in guilds {
          if !ChannelIn(channels, ticket.guildId, ticket.channelId) {
            tickets := tickets - {id};
          } else if ticket.guildId in configStore {
            timers := timers + {AutoCloseTimer(id, ticket.userId, ticket.channelId.value, configStore[ticket.guildId])};
          }
        }
        assert selected - (todo - {id}) == (selected - todo) + {id};
        todo := todo - {id};
      }
      AutoCloseIntendedAmongSelected(all, now, guilds, channels, configStore);
      SubMapKeepsUnique(tickets, all);
      forall t | t in timers ensures t.recordId in tickets && tickets[t.recordId].channelId == Some(t.channelId) {
        var id :| id in all.Keys && id in all && all[id].closedAt.None? && AutoCloseScheduled(all[id], now, guilds, channels, configStore)
          && t == AutoCloseTimer(id, all[id].userId, all[id].channelId.value, configStore[all[id].guildId]);
      }
    }

    /**
      deleteOldClosedTickets: one pass over the records closed for more than 24 hours; the
      channel is deleted where guild and channel resolve, and every selected record is deleted.
     */
    method DeleteOldClosedTickets(now: int)
      requires Valid()
      modifies this`channels, this`tickets
      ensures Valid()
      ensures tickets == RetentionSweep(old(tickets), now)
      ensures channels == old(channels) - RetentionChannels(old(tickets), now, guilds, old(channels))
    {
      var all := tickets;
      var channels0 := channels;
      var oldClosedTickets := set id | id in all && RetentionExpired(all[id], now);
      var todo := oldClosedTickets;
      while todo != {}
        invariant todo <= oldClosedTickets
        invariant tickets == map id | id in all && id !in oldClosedTickets - todo :: all[id]
        invariant channels == channels0 - RetentionChannelsAmong(all, oldClosedTickets - todo, now, guilds, channels0)
        invariant OnePerChannel(all)
        decreases todo
      {
        var id :| id in todo;
        var ticket := all[id];
        ghost var done := oldClosedTickets - todo;
        if ticket.guildId in guilds && ChannelIn(channels, ticket.guildId, ticket.channelId) {
          channels := channels - {ticket.channelId.value};
        }
        RetentionChannelsStep(all, done, id, now, guilds, channels0);
        tickets := tickets - {id};
        todo := todo - {id};
      }
      assert oldClosedTickets - todo == oldClosedTickets;
      SubMapKeepsUnique(tickets, all);
    }
  }

  /** One step of the retention loop adds the record's channel to the deleted ones exactly when it resolves in the world left so far. */
  lemma RetentionChannelsStep(ts: map<RecordId, Ticket>, done: set<RecordId>, id: RecordId, now: int,
                              guilds: set<Snowflake>, channels0: map<Snowflake, Channel>)
    requires id in ts && id !in done && RetentionExpired(ts[id], now) && OnePerChannel(ts)
    requires forall d | d in done :: d in ts
    ensures var before := RetentionChannelsAmong(ts, done, now, guilds, channels0);
      var t := ts[id];
      RetentionChannelsAmong(ts, done + {id}, now, guilds, channels0) ==
        if t.guildId in guilds && ChannelIn(channels0 - before, t.guildId, t.channelId) then before + {t.channelId.value}
        else before
  {
    var before := RetentionChannelsAmong(ts, done, now, guilds, channels0);
    var t := ts[id];
    if t.guildId in guilds && ChannelIn(channels0, t.guildId, t.channelId) {
      assert t.channelId.value in RetentionChannelsAmong(ts, done + {id}, now, guilds, channels0);
      assert t.channelId.value !in before by {
        forall d | d in done && d in ts && RetentionDeletesChannel(ts[d], now, guilds, channels0)
          ensures ts[d].channelId.value != t.channelId.value
        {
          assert d != id;
        }
      }
    }
  }
}
