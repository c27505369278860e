/**
  The interaction identifiers (`customId`) that the ticket handler writes on
  its buttons and its reason modal, how the handler parses them back, and the
  dispatch of an incoming interaction to a handler by the prefix of its
  identifier (events/ticketHandler.js, the `interactionCreate` listener).
 */
module TicketIds {
  import opened JsStrings

  const SELECT_TICKET_TYPE: JsString := Ascii("select_ticket_type")
  const MODAL_PREFIX: JsString := Ascii("ticket_modal_")
  const CLOSE_PREFIX: JsString := Ascii("close_ticket_")
  const PING_PREFIX: JsString := Ascii("ping_staff_")
  const CLAIM_PREFIX: JsString := Ascii("claim_ticket_")
  const PIN_PREFIX: JsString := Ascii("pin_ticket_")
  const UNPIN_PREFIX: JsString := Ascii("unpin_ticket_")
  const DELETE_PREFIX: JsString := Ascii("delete_ticket_")
  const REOPEN_PREFIX: JsString := Ascii("reopen_closed_ticket_")
  const DELETE_CLOSED_PREFIX: JsString := Ascii("delete_closed_ticket_")

  /** `${user.id}-${ticketChannel.id}`, the ticket id the control buttons carry. */
  function TicketId(userId: JsString, channelId: JsString): JsString {
    userId + [DASH] + channelId
  }

  /** `ticket_modal_${guild.id}_${ticketType}_${user.id}` */
  function ModalId(guildId: JsString, ticketType: JsString, userId: JsString): JsString {
    MODAL_PREFIX + guildId + [UNDERSCORE] + ticketType + [UNDERSCORE] + userId
  }

  /** The owner and channel that the close handler reads out of its button id. */
  datatype CloseTarget = CloseTarget(userId: JsString, channelId: Option<JsString>)

  /**
    `const [userId, channelId] = customId.replace('close_ticket_', '').split('-')`:
    a missing second part is `undefined`, extra parts are ignored.
   */
  function ParseCloseTarget(customId: JsString): CloseTarget {
    var parts := Split(ReplaceFirst(customId, CLOSE_PREFIX, []), DASH);
    CloseTarget(parts[0], if |parts| > 1 then Some(parts[1]) else None)
  }

  function PartAt(parts: seq<JsString>, k: nat): Option<JsString> {
    if k < |parts| then Some(parts[k]) else None
  }

  /** The three fields the modal handler reads from its identifier. */
  datatype ModalFields = ModalFields(guildId: Option<JsString>, ticketType: Option<JsString>, userId: Option<JsString>)

  /** `customParts = customId.split('_')`, fields 2, 3 and 4 (`undefined` when absent). */
  function ParseModalId(customId: JsString): ModalFields {
    var parts := Split(customId, UNDERSCORE);
    ModalFields(PartAt(parts, 2), PartAt(parts, 3), PartAt(parts, 4))
  }

  /** The close button gives back the owner and channel it was built from, as long as neither contains '-'. */
  lemma CloseTargetRoundTrip(userId: JsString, channelId: JsString)
    requires DASH !in userId && DASH !in channelId
    ensures ParseCloseTarget(CLOSE_PREFIX + TicketId(userId, channelId)) == CloseTarget(userId, Some(channelId))
  {
    var id := CLOSE_PREFIX + TicketId(userId, channelId);
    StartsWithConcat(CLOSE_PREFIX, TicketId(userId, channelId));
    ReplaceFirstAtStart(id, CLOSE_PREFIX, []);
    assert id[|CLOSE_PREFIX|..] == TicketId(userId, channelId);
    assert ReplaceFirst(id, CLOSE_PREFIX, []) == TicketId(userId, channelId);
    SplitConcat(userId, DASH, channelId);
    SplitWithoutSeparator(userId, DASH);
    SplitWithoutSeparator(channelId, DASH);
    assert Split(TicketId(userId, channelId), DASH) == [userId, channelId];
  }

  /** A '-' inside the owner id moves the split: the parsed owner is only the part before it. */
  lemma CloseTargetDashInOwner(a: JsString, b: JsString, channelId: JsString)
    requires DASH !in a && DASH !in b
    ensures ParseCloseTarget(CLOSE_PREFIX + TicketId(a + [DASH] + b, channelId)) == CloseTarget(a, Some(b))
  {
    var t := TicketId(a + [DASH] + b, channelId);
    StartsWithConcat(CLOSE_PREFIX, t);
    ReplaceFirstAtStart(CLOSE_PREFIX + t, CLOSE_PREFIX, []);
    assert (CLOSE_PREFIX + t)[|CLOSE_PREFIX|..] == t;
    assert ReplaceFirst(CLOSE_PREFIX + t, CLOSE_PREFIX, []) == t;
    assert t == a + [DASH] + (b + [DASH] + channelId);
    SplitConcat(a, DASH, b + [DASH] + channelId);
    SplitConcat(b, DASH, channelId);
    SplitWithoutSeparator(a, DASH);
    SplitWithoutSeparator(b, DASH);
    assert Split(t, DASH) == [a] + ([b] + Split(channelId, DASH));
  }

  lemma ModalPrefixParts()
    ensures MODAL_PREFIX == Ascii("ticket") + [UNDERSCORE] + Ascii("modal") + [UNDERSCORE]
  {
  }

  /** The modal id gives back guild, ticket type and user, as long as none contains '_'. */
  lemma ModalIdRoundTrip(guildId: JsString, ticketType: JsString, userId: JsString)
    requires UNDERSCORE !in guildId && UNDERSCORE !in ticketType && UNDERSCORE !in userId
    ensures ParseModalId(ModalId(guildId, ticketType, userId)) == ModalFields(Some(guildId), Some(ticketType), Some(userId))
  {
    var ticket, modal := Ascii("ticket"), Ascii("modal");
    ModalPrefixParts();
    var inner := ticketType + [UNDERSCORE] + userId;
    var tail := guildId + [UNDERSCORE] + inner;
    var rest := modal + [UNDERSCORE] + tail;
    assert ModalId(guildId, ticketType, userId) == ticket + [UNDERSCORE] + rest;
    SplitWithoutSeparator(ticketType, UNDERSCORE);
    SplitWithoutSeparator(userId, UNDERSCORE);
    SplitConcat(ticketType, UNDERSCORE, userId);
    assert Split(inner, UNDERSCORE) == [ticketType, userId];
    SplitWithoutSeparator(guildId, UNDERSCORE);
    SplitConcat(guildId, UNDERSCORE, inner);
    assert Split(tail, UNDERSCORE) == [guildId, ticketType, userId];
    SplitWithoutSeparator(modal, UNDERSCORE);
    SplitConcat(modal, UNDERSCORE, tail);
    assert Split(rest, UNDERSCORE) == [modal, guildId, ticketType, userId];
    SplitWithoutSeparator(ticket, UNDERSCORE);
    SplitConcat(ticket, UNDERSCORE, rest);
    assert Split(ModalId(guildId, ticketType, userId), UNDERSCORE) == [ticket, modal, guildId, ticketType, userId];
  }

  datatype InteractionKind = ModalSubmit | StringSelectMenu | Button | OtherInteraction

  datatype Route =
    | ModalSubmitRoute | CreationRoute | CloseRoute | PingRoute | ClaimRoute
    | PinRoute | UnpinRoute | DeleteRoute | ReopenRoute | DeleteClosedRoute | NoRoute

  /** The `interactionCreate` dispatch: the first test that matches picks the handler. */
  function Dispatch(kind: InteractionKind, customId: JsString): Route {
    if kind == ModalSubmit && |customId| > 0 && StartsWith(customId, MODAL_PREFIX) then ModalSubmitRoute
    else if kind == StringSelectMenu && customId == SELECT_TICKET_TYPE then CreationRoute
    else if kind != Button then NoRoute
    else if StartsWith(customId, CLOSE_PREFIX) then CloseRoute
    else if StartsWith(customId, PING_PREFIX) then PingRoute
    else if StartsWith(customId, CLAIM_PREFIX) then ClaimRoute
    else if StartsWith(customId, PIN_PREFIX) then PinRoute
    else if StartsWith(customId, UNPIN_PREFIX) then UnpinRoute
    else if StartsWith(customId, DELETE_PREFIX) then DeleteRoute
    else if StartsWith(customId, REOPEN_PREFIX) then ReopenRoute
    else if StartsWith(customId, DELETE_CLOSED_PREFIX) then DeleteClosedRoute
    else NoRoute
  }

  /** Every identifier the handler builds reaches the handler it was built for, whatever it carries. */
  lemma BuiltIdsDispatchToTheirHandler(t: JsString)
    ensures Dispatch(ModalSubmit, MODAL_PREFIX + t) == ModalSubmitRoute
    ensures Dispatch(StringSelectMenu, SELECT_TICKET_TYPE) == CreationRoute
    ensures Dispatch(Button, CLOSE_PREFIX + t) == CloseRoute
    ensures Dispatch(Button, CLAIM_PREFIX + t) == ClaimRoute
    ensures Dispatch(Button, PIN_PREFIX + t) == PinRoute
    ensures Dispatch(Button, UNPIN_PREFIX + t) == UnpinRoute
    ensures Dispatch(Button, DELETE_PREFIX + t) == DeleteRoute
    ensures Dispatch(Button, REOPEN_PREFIX + t) == ReopenRoute
    ensures Dispatch(Button, DELETE_CLOSED_PREFIX + t) == DeleteClosedRoute
  {
    StartsWithConcat(MODAL_PREFIX, t);
    StartsWithConcat(CLOSE_PREFIX, t);
    // claim_ticket_: 'a' against close's 'o', 'c' against ping's 'p'
    StartsWithConcat(CLAIM_PREFIX, t);
    DisagreeingPrefix(CLAIM_PREFIX, CLOSE_PREFIX, 2, t);
    DisagreeingPrefix(CLAIM_PREFIX, PING_PREFIX, 0, t);
    // pin_ticket_: '_' against ping's 'g'
    StartsWithConcat(PIN_PREFIX, t);
    DisagreeingPrefix(PIN_PREFIX, CLOSE_PREFIX, 0, t);
    DisagreeingPrefix(PIN_PREFIX, PING_PREFIX, 3, t);
    DisagreeingPrefix(PIN_PREFIX, CLAIM_PREFIX, 0, t);
    // unpin_ticket_
    StartsWithConcat(UNPIN_PREFIX, t);
    DisagreeingPrefix(UNPIN_PREFIX, CLOSE_PREFIX, 0, t);
    DisagreeingPrefix(UNPIN_PREFIX, PING_PREFIX, 0, t);
    DisagreeingPrefix(UNPIN_PREFIX, CLAIM_PREFIX, 0, t);
    DisagreeingPrefix(UNPIN_PREFIX, PIN_PREFIX, 0, t);
    // delete_ticket_
    StartsWithConcat(DELETE_PREFIX, t);
    DisagreeingPrefix(DELETE_PREFIX, CLOSE_PREFIX, 0, t);
    DisagreeingPrefix(DELETE_PREFIX, PING_PREFIX, 0, t);
    DisagreeingPrefix(DELETE_PREFIX, CLAIM_PREFIX, 0, t);
    DisagreeingPrefix(DELETE_PREFIX, PIN_PREFIX, 0, t);
    DisagreeingPrefix(DELETE_PREFIX, UNPIN_PREFIX, 0, t);
    // reopen_closed_ticket_
    StartsWithConcat(REOPEN_PREFIX, t);
    DisagreeingPrefix(REOPEN_PREFIX, CLOSE_PREFIX, 0, t);
    DisagreeingPrefix(REOPEN_PREFIX, PING_PREFIX, 0, t);
    DisagreeingPrefix(REOPEN_PREFIX, CLAIM_PREFIX, 0, t);
    DisagreeingPrefix(REOPEN_PREFIX, PIN_PREFIX, 0, t);
    DisagreeingPrefix(REOPEN_PREFIX, UNPIN_PREFIX, 0, t);
    DisagreeingPrefix(REOPEN_PREFIX, DELETE_PREFIX, 0, t);
    // delete_closed_ticket_: 'c' against delete_ticket_'s 't'
    StartsWithConcat(DELETE_CLOSED_PREFIX, t);
    DisagreeingPrefix(DELETE_CLOSED_PREFIX, CLOSE_PREFIX, 0, t);
    DisagreeingPrefix(DELETE_CLOSED_PREFIX, PING_PREFIX, 0, t);
    DisagreeingPrefix(DELETE_CLOSED_PREFIX, CLAIM_PREFIX, 0, t);
    DisagreeingPrefix(DELETE_CLOSED_PREFIX, PIN_PREFIX, 0, t);
    DisagreeingPrefix(DELETE_CLOSED_PREFIX, UNPIN_PREFIX, 0, t);
    DisagreeingPrefix(DELETE_CLOSED_PREFIX, DELETE_PREFIX, 7, t);
    DisagreeingPrefix(DELETE_CLOSED_PREFIX, REOPEN_PREFIX, 0, t);
  }
}
