/**
  The handlers walked through concrete ids (verified, not executed): the ticket
  lifecycle, pin then unpin, the staff-ping cooldown, and the fate of a ticket
  the inactivity sweep closes, as written and as intended.
 */
module Scenarios {
  import opened JsStrings
  import opened TicketIds
  import opened TicketModel
  import opened TicketHandler

  const GUILD: Snowflake := Ascii("100")
  const OWNER: Snowflake := Ascii("200")
  const STAFF_ROLE: Snowflake := Ascii("300")
  const TICKET_CHANNEL: Snowflake := Ascii("400")
  const INTAKE_CHANNEL: Snowflake := Ascii("401")
  const OTHER_CHANNEL: Snowflake := Ascii("402")
  const ACTIVE_CATEGORY: Snowflake := Ascii("500")
  const ARCHIVE_CATEGORY: Snowflake := Ascii("501")
  const SUPPORT: JsString := Ascii("support")
  const USERNAME: JsString := Ascii("alice")
  const REASON: JsString := Ascii("refund")
  const TOPIC: JsString := Ascii("help")

  const CONFIG: TicketConfig :=
    TicketConfig(Some(INTAKE_CHANNEL), None, Some(STAFF_ROLE), true, Some(ACTIVE_CATEGORY), Some(ARCHIVE_CATEGORY), None)

  const OWNER_MEMBER: Member := Member(OWNER, {}, false)

  lemma IdsHaveNoSeparators()
    ensures DASH !in OWNER && DASH !in TICKET_CHANNEL
    ensures UNDERSCORE !in GUILD && UNDERSCORE !in SUPPORT && UNDERSCORE !in OWNER
  {
  }

  lemma IdsDiffer()
    ensures TICKET_CHANNEL != OTHER_CHANNEL && OWNER != STAFF_ROLE
  {
    assert TICKET_CHANNEL[2] != OTHER_CHANNEL[2];
    assert OWNER[0] != STAFF_ROLE[0];
  }

  /**
    Create a ticket through the modal, close it (the owner may), let the continuation archive it,
    and reopen it: the record carries the trimmed reason, closedAt is stamped and cleared, and the
    owner's send permission is taken and given back.
   */
  method Lifecycle() returns (created: Outcome<JsString>, closedAt: Option<int>, archivedIn: Option<Snowflake>, sendWhileClosed: bool,
                              reopened: Outcome<()>, closedAtAfter: Option<int>, activeIn: Option<Snowflake>, sendAfter: bool)
    ensures created == Accepted(TicketId(OWNER, TICKET_CHANNEL))
    ensures closedAt == Some(5000) && archivedIn == Some(ARCHIVE_CATEGORY) && !sendWhileClosed
    ensures reopened == Accepted(()) && closedAtAfter == None && activeIn == Some(ACTIVE_CATEGORY) && sendAfter
  {
    IdsHaveNoSeparators();
    var bot := new TicketBot(map[GUILD := CONFIG], map[], 0, {GUILD}, map[]);
    ModalIdRoundTrip(GUILD, SUPPORT, OWNER);
    created := bot.HandleTicketModalSubmit(ModalId(GUILD, SUPPORT, OWNER), REASON, map[OWNER := USERNAME], TICKET_CHANNEL, 3);
    assert OwnerRecords(map[], OWNER, GUILD) == {};
    assert !BlockedByExisting(map[], map[], OWNER, GUILD);
    assert bot.tickets[0].reason == Some(Trim(REASON));

    var it := Interaction(GUILD, OWNER_MEMBER, TICKET_CHANNEL);
    CloseTargetRoundTrip(OWNER, TICKET_CHANNEL);
    var close := bot.HandleTicketClose(it, CLOSE_PREFIX + TicketId(OWNER, TICKET_CHANNEL));
    assert close == Accepted(CloseTimer(GUILD, OWNER, Some(TICKET_CHANNEL), CONFIG));
    assert OwnerRecords(bot.tickets, OWNER, GUILD) == {0};
    bot.FireCloseTimer(close.value, 5000);
    closedAt := bot.tickets[0].closedAt;
    archivedIn := bot.channels[TICKET_CHANNEL].parentId;
    sendWhileClosed := bot.channels[TICKET_CHANNEL].sendAllowed[OWNER];

    assert ChannelRecords(bot.tickets, TICKET_CHANNEL) == {0};
    reopened := bot.HandleReopenClosedTicket(it, 10000);
    closedAtAfter := bot.tickets[0].closedAt;
    activeIn := bot.channels[TICKET_CHANNEL].parentId;
    sendAfter := bot.channels[TICKET_CHANNEL].sendAllowed[OWNER];
  }

  /**
    In a category whose cache lists an already pinned channel at position 0 and then the ticket at
    position 5, pin moves the ticket to 1 and saves 5; unpin puts it back at 5 and clears the saved
    position, but the name comes back with the marker's low surrogate in front.
   */
  method PinThenUnpin() returns (pinnedName: JsString, pinnedAt: int, unpinnedName: JsString, unpinnedAt: int, savedAfter: Option<int>)
    ensures pinnedName == PIN_MARKER + TOPIC && pinnedAt == 1
    ensures unpinnedName == [0xDCCC] + TOPIC && unpinnedAt == 5 && savedAfter == None
  {
    var pinnedOther := Channel(GUILD, Some(ACTIVE_CATEGORY), PIN_MARKER + Ascii("vip"), 0, map[]);
    var ticket := Channel(GUILD, Some(ACTIVE_CATEGORY), TOPIC, 5, map[OWNER := true]);
    var record := Ticket(OWNER, GUILD, Some(TICKET_CHANNEL), Some(REASON), None, None, None, None);
    var bot := new TicketBot(map[GUILD := CONFIG], map[0 := record], 1, {GUILD},
                             map[OTHER_CHANNEL := pinnedOther, TICKET_CHANNEL := ticket]);
    IdsDiffer();
    var staff := Interaction(GUILD, Member(Ascii("900"), {STAFF_ROLE}, false), TICKET_CHANNEL);
    var order := [OTHER_CHANNEL, TICKET_CHANNEL];
    assert !IsPinnedName(TOPIC) by {
      assert TOPIC[0] != PIN_MARKER[0];
    }
    assert ChannelRecords(bot.tickets, TICKET_CHANNEL) == {0};
    ghost var renamed := bot.channels[TICKET_CHANNEL := ticket.(name := PinnedName(TOPIC))];
    assert Children(renamed, order, ACTIVE_CATEGORY) ==
      [ChildView(OTHER_CHANNEL, PIN_MARKER + Ascii("vip"), 0), ChildView(TICKET_CHANNEL, PinnedName(TOPIC), 5)] by {
      assert order[1..] == [TICKET_CHANNEL] && order[1..][1..] == [];
      assert Children(renamed, [], ACTIVE_CATEGORY) == [];
      assert Children(renamed, [TICKET_CHANNEL], ACTIVE_CATEGORY) == [ChildView(TICKET_CHANNEL, PinnedName(TOPIC), 5)];
    }
    StartsWithConcat(PIN_MARKER, Ascii("vip"));
    var pin := bot.HandleTicketPin(staff, true, order);
    pinnedName := bot.channels[TICKET_CHANNEL].name;
    pinnedAt := bot.channels[TICKET_CHANNEL].position;

    UnpinLeavesLowSurrogate(TOPIC);
    assert ChannelRecords(bot.tickets, TICKET_CHANNEL) == {0};
    assert HasSavedPosition(bot.tickets, TICKET_CHANNEL);
    var unpin := bot.HandleTicketUnpin(staff, true, order);
    unpinnedName := bot.channels[TICKET_CHANNEL].name;
    unpinnedAt := bot.channels[TICKET_CHANNEL].position;
    savedAfter := bot.tickets[0].originalPosition;
  }

  /** The first ping creates the record; a ping a second later is refused until six hours after the first; at six hours it passes. */
  method PingCooldown() returns (first: Outcome<()>, second: Outcome<()>, third: Outcome<()>, lastPing: Option<int>)
    ensures first == Accepted(()) && second == Rejected(CooldownActive(21_600_000)) && third == Accepted(())
    ensures lastPing == Some(21_600_000)
  {
    var bot := new TicketBot(map[GUILD := CONFIG], map[], 0, {GUILD}, map[]);
    var it := Interaction(GUILD, OWNER_MEMBER, TICKET_CHANNEL);
    assert OwnerRecords(map[], OWNER, GUILD) == {};
    first := bot.HandleStaffPing(it, 0);
    assert OwnerRecords(bot.tickets, OWNER, GUILD) == {0};
    second := bot.HandleStaffPing(it, 1000);
    assert OwnerRecords(bot.tickets, OWNER, GUILD) == {0};
    third := bot.HandleStaffPing(it, 21_600_000);
    lastPing := bot.tickets[0].lastPing;
  }

  /** A world with one ticket whose owner last wrote at time 0, in the active category. */
  method InactiveWorld() returns (bot: TicketBot)
    ensures fresh(bot) && bot.Valid()
    ensures bot.configStore == map[GUILD := CONFIG] && bot.guilds == {GUILD}
    ensures bot.tickets == map[0 := Ticket(OWNER, GUILD, Some(TICKET_CHANNEL), Some(REASON), Some(0), None, None, None)]
    ensures bot.channels == map[TICKET_CHANNEL := Channel(GUILD, Some(ACTIVE_CATEGORY), TOPIC, 5, map[OWNER := true])]
  {
    var record := Ticket(OWNER, GUILD, Some(TICKET_CHANNEL), Some(REASON), Some(0), None, None, None);
    bot := new TicketBot(map[GUILD := CONFIG], map[0 := record], 1, {GUILD},
                         map[TICKET_CHANNEL := Channel(GUILD, Some(ACTIVE_CATEGORY), TOPIC, 5, map[OWNER := true])]);
  }

  /**
    As written: 73 hours of silence get the ticket auto-closed into the archive, but its record is
    already gone; 25 hours after the continuation the retention sweep finds nothing, the archived
    channel stays, and reopening it is refused for want of ticket data.
   */
  method AutoCloseAsWritten() returns (recordsLeft: nat, archiveStays: bool, reopen: Outcome<()>)
    ensures recordsLeft == 0 && archiveStays && reopen == Rejected(TicketDataNotFound)
  {
    var bot := InactiveWorld();
    var now := 73 * HOUR;
    ghost var ts0 := bot.tickets;
    assert AutoCloseScheduled(ts0[0], now, bot.guilds, bot.channels, bot.configStore);
    var timers := bot.AutoCloseInactiveTickets(now);
    assert AutoCloseTimer(0, OWNER, TICKET_CHANNEL, CONFIG) in timers;
    assert AutoCloseDrops(ts0[0], now, bot.guilds, bot.channels, bot.configStore);
    assert bot.tickets == map[];
    bot.FireAutoCloseTimer(AutoCloseTimer(0, OWNER, TICKET_CHANNEL, CONFIG), now + 5000);
    assert bot.tickets == map[];
    bot.DeleteOldClosedTickets(now + 5000 + 25 * HOUR);
    assert bot.tickets == map[];
    recordsLeft := |bot.tickets|;
    archiveStays := TICKET_CHANNEL in bot.channels && bot.channels[TICKET_CHANNEL].parentId == Some(ARCHIVE_CATEGORY);
    assert ChannelRecords(bot.tickets, TICKET_CHANNEL) == {};
    reopen := bot.HandleReopenClosedTicket(Interaction(GUILD, OWNER_MEMBER, TICKET_CHANNEL), now + 6000);
  }

  /**
    As intended: the record survives the sweep and the continuation stamps closedAt; the next
    hourly sweep, at 74 hours, leaves the closed ticket alone, and the retention sweep 25 hours
    after the stamp deletes both the record and the archived channel.
   */
  method AutoCloseIntended() returns (closedAt: Option<int>, nextSweep: set<AutoCloseTimer>, recordsLeft: nat, channelGone: bool)
    ensures closedAt == Some(73 * HOUR + 5000) && nextSweep == {} && recordsLeft == 0 && channelGone
  {
    var bot := InactiveWorld();
    var now := 73 * HOUR;
    ghost var ts0 := bot.tickets;
    assert AutoCloseScheduled(ts0[0], now, bot.guilds, bot.channels, bot.configStore);
    var timers := bot.AutoCloseInactiveTicketsIntended(now);
    assert AutoCloseTimer(0, OWNER, TICKET_CHANNEL, CONFIG) in timers;
    bot.FireAutoCloseTimer(AutoCloseTimer(0, OWNER, TICKET_CHANNEL, CONFIG), now + 5000);
    closedAt := bot.tickets[0].closedAt;
    ghost var stamped := bot.tickets;
    IntendedSweepSkipsClosed(stamped, 74 * HOUR, bot.guilds, bot.channels, bot.configStore, 0);
    nextSweep := bot.AutoCloseInactiveTicketsIntended(74 * HOUR);
    assert stamped.Keys == {0};
    ghost var before, channelsBefore := bot.tickets, bot.channels;
    bot.DeleteOldClosedTickets(now + 5000 + 25 * HOUR);
    assert TICKET_CHANNEL in RetentionChannels(before, now + 5000 + 25 * HOUR, bot.guilds, channelsBefore);
    recordsLeft := |bot.tickets|;
    channelGone := TICKET_CHANNEL !in bot.channels;
  }
}
