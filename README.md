# Support-ticket lifecycle of a Discord bot, modelled in Dafny

This project models `events/ticketHandler.js`, the support-ticket system of a
Discord bot. A guild configures an intake channel, an active category, an
archive category and an admin role. A member picks a ticket type and then fills
in a modal with a reason. The bot creates a private channel and a ticket record.

Inside that channel, buttons claim, pin, unpin, close and delete the ticket, and
a staff ping has a six-hour cooldown. Closing moves the channel to the archive
category after five seconds. Reopening moves it back.

Three background sweeps run on a timer:
- the orphan sweep deletes records whose channel is gone;
- the inactivity sweep auto-closes tickets after 72 hours without an owner message;
- the retention sweep deletes tickets 24 hours after they were closed.

A per-guild configuration cache refreshes every 60 seconds, and the handler posts
the intake prompt only when none of the latest ten messages carries it.

The model is split into four modules:

- `JsStrings` (`js_strings.dfy`) models JavaScript strings as sequences of UTF-16
  code units, together with the string built-ins the handler relies on: `split`
  on one code unit, `replace` of the first occurrence, `trim` and `startsWith`.
- `TicketIds` (`ticket_ids.dfy`) holds the interaction identifiers. It builds
  `ticket_modal_<guild>_<type>_<user>` and `<action>_<user>-<channel>`, parses
  them back with `split`, and mirrors the router order of `interactionCreate`.
- `TicketModel` (`ticket_model.dfy`) holds the values and the pure decisions:
  - configuration documents, ticket records, channels and members;
  - the cache refresh test and the staff test;
  - the ping cooldown and the 72 h / 24 h thresholds;
  - what each sweep leaves in the store;
  - the pin marker and the arithmetic of pin and unpin positions;
  - the prompt check.
- `TicketHandler` (`ticket_handler.dfy`) holds the state machine. The class
  `TicketBot` has these fields:
  - the cache (`configCache`, `lastConfigLoad`);
  - the configuration store;
  - the ticket store (`tickets`, keyed by the document `_id`);
  - the guilds in the client cache;
  - the channel world.

  It has one method per event handler, one per 5-second continuation
  (`Fire…Timer`) and one per sweep. A handler that schedules a continuation
  returns a timer value holding what the closure captured. The continuation runs
  later as a separate step, against whatever the world has become by then.

  `Valid()` keeps two facts: fresh `_id`s lie above all stored ones, and at most
  one record exists per (user, guild) and per channel. Fresh `_id`s maintain the
  first. The creation guard and the ping upsert keep one record per owner, and
  fresh channel ids keep one record per channel. Each
  `findOne` by owner or by channel therefore has at most one match.
- `Scenarios` (`scenarios.dfy`) walks the handlers through concrete ids (verified, not executed). It covers:
  - create, close, archive and reopen;
  - pin then unpin;
  - the ping cooldown;
  - the inactivity sweep, as written and as intended.

Modelling choices:

- A Discord id is a string (`Snowflake`), and every time is an integer of milliseconds.
- A field the database may lack is an `Option`. A string field tested by
  JavaScript truthiness is `Truthy`: present and not empty.
- A channel's permission overwrites become one map, from each user with an
  overwrite to whether that user may send messages.
- `guild.channels.cache.get(id)` returns a channel only when that channel exists
  and belongs to the guild (`ChannelIn`).
- The iteration order of a category's children comes in as a parameter (`cacheOrder`). A real cache lists each channel once; the model does not require it, and a channel repeated in `cacheOrder` is listed as often as it appears.
- Whether the bot holds ManageChannels comes in as a parameter (`botCanManage`).
- The outcome of each prompt-channel fetch comes in as a parameter (`history`):
  a channel missing from `history` means the fetch failed.
- The user directory comes in as a parameter (`usernames`).
- The id and position of a newly created channel come in as parameters.
- Whether the configuration store answers comes in as a parameter (`storeAvailable`).
- The clock is a parameter (`now`).

Where a reader might expect other behaviour, the model follows the code:

- One might expect creation to be blocked only by an *open* ticket. The code
  (`events/ticketHandler.js:239-247`, `:293-301`) blocks on any record of the
  same user and guild, closed or not, as long as its channel still resolves.
- One might expect deleting a closed ticket to remove its record at once. The
  code removes it inside the 5-second continuation (`:1164`), just before it
  deletes the channel.
- One might expect the orphan sweep to delete every record whose channel no
  longer resolves. The code (`:528-529`) skips records whose guild is not in the
  client cache.
- One might expect staff messages not to count as activity. The code (`:85-91`)
  counts any non-bot message from the record's owner, staff or not.
- One might expect every close with an archive category to leave a record with
  `closedAt` set until the retention sweep. The automatic close deletes the
  record at once (`:619`). A close by button does stamp `closedAt` (`:436`), if the
  owner has a record, but the inactivity query (`:543-545`) does not skip closed
  tickets. Once the owner has been silent for 72 hours, the next inactivity sweep
  selects the closed ticket and deletes its record at `:619` before the retention
  sweep reaches it (Findings, row 1).
- One might expect the automatic close to behave exactly like the manual one. The
  automatic continuation (`:577`) always writes the owner's overwrite. The manual
  one (`:404-410`) writes it only when an overwrite already exists.
- One might expect unpin to remove the whole pin marker. The code removes one
  UTF-16 code unit of the two-unit marker (Findings, row 2).
- Reopen also requires a configured active category (`:1076`, `:1108-1112`).
- `getConfig` returns the whole cache map, not the entry of one guild.

## Model

| member | source | states |
|---|---|---|
| JsStrings.EncodeCodePoint | events/ticketHandler.js:851 | a code point of the supplementary planes is two surrogate units that decode back to it; the pin marker is such a pair |
| JsStrings.IndexOfFrom | events/ticketHandler.js:362 | the result is the first index at or after k where the pattern starts, or none if it occurs nowhere |
| JsStrings.ReplaceFirstAtStart | events/ticketHandler.js:362 | `replace(p, rep)` on a string starting with `p` swaps exactly that prefix |
| JsStrings.ReplaceFirstAbsent | events/ticketHandler.js:362 | `replace` leaves a string without the pattern unchanged |
| JsStrings.Split | events/ticketHandler.js:275 | `split` yields at least one part and no part contains the separator |
| JsStrings.SplitJoin | events/ticketHandler.js:275 | splitting a join of separator-free parts gives the parts back |
| JsStrings.JoinSplit | events/ticketHandler.js:363 | joining the split parts restores the string: split loses nothing |
| JsStrings.SplitConcat | events/ticketHandler.js:363 | splitting at one separator splits both sides independently |
| JsStrings.LeadingSpaces | events/ticketHandler.js:281 | counts exactly the run of white-space units at the front |
| JsStrings.TrailingSpaces | events/ticketHandler.js:281 | counts exactly the run of white-space units at the back |
| JsStrings.TrimSpec | events/ticketHandler.js:281 | `trim` keeps a slice of the input, cuts only white space, and leaves no white space at either end |
| JsStrings.TrimIdempotent | events/ticketHandler.js:281 | trimming the stored reason again changes nothing |
| TicketIds.CloseTargetRoundTrip | events/ticketHandler.js:362-363 | built at :317 and :337; parsing `close_ticket_<user>-<channel>` gives back the user and the channel when neither id contains '-' |
| TicketIds.CloseTargetDashInOwner | events/ticketHandler.js:362-363 | a '-' inside the owner id shifts the parse: the owner is cut at the dash and the channel becomes the rest of the owner id |
| TicketIds.ModalIdRoundTrip | events/ticketHandler.js:275-279 | built at :252; parsing `ticket_modal_<guild>_<type>_<user>` gives back the guild, the type and the user when none contains '_' |
| TicketIds.BuiltIdsDispatchToTheirHandler | events/ticketHandler.js:95-137 | every identifier the handler builds is routed to its own handler, despite the shared prefixes (claim/close, pin/ping, delete/delete_closed) |
| TicketModel.ReloadBoundary | events/ticketHandler.js:53-58 | interval from :23; without force, a cache exactly 60 000 ms old is kept and one a millisecond older is reloaded |
| TicketModel.PingCooldownBoundary | events/ticketHandler.js:486 | a ping is refused iff a previous ping is less than six hours old; exactly six hours later it passes |
| TicketModel.InactivityBoundary | events/ticketHandler.js:541-545 | a ticket silent for 73 h is selected, for exactly 72 h or 71 h it is not |
| TicketModel.RetentionBoundary | events/ticketHandler.js:631-635 | a ticket closed 25 h ago is selected, exactly 24 h or 23 h ago it is not |
| TicketModel.SubMapKeepsUnique | events/ticketHandler.js:525-721 | every sweep delete (:533, :553, :619, :640, :713): deleting records never breaks at most one record per owner and per channel |
| TicketModel.AddRecordKeepsUnique | events/ticketHandler.js:315 | and the ping upsert at :512-516: a created or upserted record keeps both filters unique when its owner and channel have none yet |
| TicketModel.OnePerOwnerAtMostOne | events/ticketHandler.js:239 | also :483; a `{ userId, guildId }` filter matches exactly the record `findOne` found |
| TicketModel.OnePerChannelAtMostOne | events/ticketHandler.js:87 | also :1057; a `{ ticketChannelId }` filter matches exactly the record `findOne` found |
| TicketModel.OrphanSweepProperties | events/ticketHandler.js:525-537 | the orphan sweep removes exactly the records whose guild resolves and channel does not, changes no other record, and a second run does nothing |
| TicketModel.PingOnlyRecordIsOrphan | events/ticketHandler.js:512-533 | a record created by the ping upsert has no channel and is deleted by the next orphan sweep |
| TicketModel.AutoCloseSweepProperties | events/ticketHandler.js:539-627 | of the selected records the sweep keeps exactly those whose guild is gone, or whose channel resolves and configuration is missing; every record not selected stays; every record it schedules a close for is gone; a second sweep changes nothing and schedules nothing |
| TicketModel.AutoCloseAmongStep | events/ticketHandler.js:547-619 | one loop iteration deletes the record iff it is an orphan or gets a continuation, and schedules iff guild, channel and configuration resolve |
| TicketModel.AutoCloseAmongInactive | events/ticketHandler.js:543-545 | looping over the selected records alone computes the whole sweep |
| TicketModel.AutoClosedChannelLosesItsRecord | events/ticketHandler.js:606-619 | after the sweep no record points to an auto-closed channel, so the closedAt stamp matches nothing and no retention sweep ever deletes that channel |
| TicketModel.IntendedAutoCloseReachesRetention | events/ticketHandler.js:604-606 | with the record kept and stamped, any number of later intended sweeps (the hourly timer at :76) leave it unchanged, and the retention sweep more than 24 h after the stamp deletes the record and, if it resolves, the channel |
| TicketModel.AutoCloseIntendedAmongStep | events/ticketHandler.js:547-619 | one iteration of the intended loop deletes only selected orphans, and schedules a selected record exactly when guild, channel and configuration resolve |
| TicketModel.AutoCloseIntendedAmongSelected | events/ticketHandler.js:543-545 | looping over the open inactive records alone computes the whole intended sweep and its continuations |
| TicketModel.IntendedSweepSkipsClosed | events/ticketHandler.js:543-545 | with `closedAt: null` in the query, a closed record stays unchanged and gets no continuation |
| TicketModel.ClosedRecordSurvivesIntendedSweeps | events/ticketHandler.js:76 | however many intended sweeps the hourly timer runs, in whatever world, a closed record stays exactly as it was |
| TicketModel.ClosedTicketLosesItsRecord | events/ticketHandler.js:543-545 | as written, a ticket closed by button whose owner has been silent 72 h is selected again: its record is deleted at :619 and no retention sweep ever deletes its channel |
| TicketModel.OpenAndInactive | events/ticketHandler.js:543-545 | the intended selection, inactive and not closed; its properties are IntendedSweepSkipsClosed and AutoCloseIntendedAmongSelected |
| TicketModel.IntendedSweeps | events/ticketHandler.js:76 | the hourly inactivity sweeps one after the other; its property is ClosedRecordSurvivesIntendedSweeps |
| TicketModel.RetentionSweepProperties | events/ticketHandler.js:629-722 | a record survives the retention sweep iff it has not expired, survivors are unchanged, and a second sweep deletes neither records nor channels |
| TicketModel.PinMarkerIsUtf16 | events/ticketHandler.js:851-855 | the pin marker is the UTF-16 encoding of U+1F4CC, two code units |
| TicketModel.UnpinLeavesLowSurrogate | events/ticketHandler.js:1220 | marker added at :855; unpinning a pinned name with `slice(1)` leaves a lone low surrogate in front of it, so the name does not come back and does not count as pinned |
| TicketModel.UnpinIntendedRoundTrip | events/ticketHandler.js:1220 | removing the whole marker gives back the name before the pin, and re-pinning gives back the pinned name |
| TicketModel.Children | events/ticketHandler.js:869 | also :1239; every listed child is a channel under the category, shown with its current name and position |
| TicketModel.ChildrenFromOrder | events/ticketHandler.js:869 | every listed child comes from the cache iteration order |
| TicketModel.ChildrenComplete | events/ticketHandler.js:869 | every channel of the cache under the category is listed, so the pin loop at :873-877 and the maximum at :1240 see all children |
| TicketModel.ChildrenInOrder | events/ticketHandler.js:869 | of two listed children the earlier one comes first in the cache order, so "last pinned" at :873-877 means last in cache order |
| TicketModel.LastPinnedPositionSpec | events/ticketHandler.js:870-877 | the loop's value is the position of the last pinned child other than the channel itself, or -1 when there is none |
| TicketModel.FindLastPinnedPosition | events/ticketHandler.js:870-877 | the loop computes LastPinnedPosition |
| TicketModel.PinTargetPosition | events/ticketHandler.js:880 | the target is always the last pinned position plus one: the -1 case, which gives 0, is that same rule |
| TicketModel.MaxPosition | events/ticketHandler.js:1240 | `Math.max(...positions, -1)` is at least -1, bounds every child position, and is -1 or the position of some child |
| TicketModel.Latest | events/ticketHandler.js:171 | also :752; a fetch with limit 10 sees the last min(10, n) messages of the channel |
| TicketModel.PromptSeenAfterPosting | events/ticketHandler.js:171-180 | and the reload check at :752-762: once posted, the prompt is among the next fetch, so the check does not post it again |
| TicketHandler.PlanPrompts | events/ticketHandler.js:161-186 | the setup loop posts in exactly the enabled guilds whose ticket channel resolves, is fetched, and lacks the prompt |
| TicketHandler.SetupPostsOnce | events/ticketHandler.js:158-186 | after the setup posted, running it again posts nothing |
| TicketHandler.TicketBot.constructor | events/ticketHandler.js:21-22 | starts with an empty cache that has never loaded |
| TicketHandler.TicketBot.LoadConfig | events/ticketHandler.js:26-50 | a successful load replaces the whole cache by the store and stamps the time; a failed one changes neither |
| TicketHandler.TicketBot.GetConfig | events/ticketHandler.js:53-58 | reloads iff forced, never loaded (or loaded at time 0), or older than 60 s; otherwise cache and time stay |
| TicketHandler.TicketBot.ReloadTicketConfig | events/ticketHandler.js:723-767 | without a stored configuration nothing changes; otherwise only that entry is replaced, the time is stamped, and the prompt is posted iff guild and channel resolve and the fetch lacks it (no status check) |
| TicketHandler.TicketBot.SetupTicketChannels | events/ticketHandler.js:158-186 | forced reload, then prompts exactly in the guilds PromptGuilds names for the reloaded cache |
| TicketHandler.TicketBot.GuildDelete | events/ticketHandler.js:140-154 | the guild's configuration and all its records are deleted, the cache is reloaded if possible, and the guild's cache entry is gone either way |
| TicketHandler.TicketBot.ClearStaleOwnerRecord | events/ticketHandler.js:239-247 | repeated at :293-301; a record of the owner whose channel resolves blocks and stays; otherwise the owner's stale record is deleted |
| TicketHandler.TicketBot.HandleTicketCreation | events/ticketHandler.js:227-269 | rejected when the configuration is missing or disabled, or an existing record's channel resolves, with no change; otherwise the stale record is gone and the modal id is returned |
| TicketHandler.TicketBot.HandleTicketModalSubmit | events/ticketHandler.js:272-356 | rejections for unknown guild, unknown user, disabled configuration and open ticket change nothing; success deletes the stale record, adds exactly one record with the trimmed reason and no closedAt, and a channel named `<type>-<username>` under the active category where the owner may send |
| TicketHandler.TicketBot.HandleTicketClose | events/ticketHandler.js:359-463 | rejected without configuration; otherwise rejected iff the member is neither the parsed owner nor staff; accepted closes capture guild, parsed ids and configuration |
| TicketHandler.TicketBot.FireCloseTimer | events/ticketHandler.js:396-455 | channel gone: nothing changes; archive configured: channel moved, the owner's existing overwrite revoked, closedAt stamped on the owner's record; no archive: channel and record deleted; an id without a channel part: nothing changes with an archive, only the owner's record is deleted without one |
| TicketHandler.TicketBot.DeleteOwnerRecord | events/ticketHandler.js:446 | `deleteOne({ userId, guildId })` removes exactly the owner's records and keeps the store's invariants |
| TicketHandler.TicketBot.HandleReopenClosedTicket | events/ticketHandler.js:1040-1120 | rejected, with no change, without configuration, without a record for the channel, for a member neither staff nor owner, or without active category; otherwise the channel moves back, the owner may send, and only that record gets closedAt cleared and lastActivityTime now |
| TicketHandler.TicketBot.StaffGuard | events/ticketHandler.js:377-379 | the same test at :783-785 and in every staff handler; passes iff the configuration exists and the member holds the admin role, is the configured owner, or holds ManageChannels |
| TicketHandler.TicketBot.HandleTicketClaim | events/ticketHandler.js:770-813 | rejected exactly for non-staff (or no configuration); no state changes either way |
| TicketHandler.TicketBot.HandleTicketDelete | events/ticketHandler.js:928-1037 | rejected exactly for non-staff; accepted deletes schedule only a channel deletion |
| TicketHandler.TicketBot.FireDeleteTimer | events/ticketHandler.js:1023-1030 | the channel is deleted and the record is not touched |
| TicketHandler.TicketBot.HandleDeleteClosedTicket | events/ticketHandler.js:1123-1178 | rejected exactly for non-staff; accepted deletes schedule the channel's deletion |
| TicketHandler.TicketBot.FireDeleteClosedTimer | events/ticketHandler.js:1161-1170 | the channel's record and then the channel are deleted |
| TicketHandler.TicketBot.HandleStaffPing | events/ticketHandler.js:465-523 | rejected without an admin role, or with the remaining time while on cooldown, with no change; otherwise lastPing is upserted for (member, guild), creating the record if absent, and nothing else changes |
| TicketHandler.TicketBot.PinGuard | events/ticketHandler.js:834-846 | unpin at :1199-1211; pin and unpin pass iff the member is staff and the bot may manage channels |
| TicketHandler.TicketBot.HandleTicketPin | events/ticketHandler.js:816-925 | rejections change nothing; an already pinned name is refused; otherwise the marker is prepended, the channel placed after the last other pinned child, and its former position saved on its record |
| TicketHandler.TicketBot.HandleTicketUnpin | events/ticketHandler.js:1181-1268 | rejections change nothing; an unpinned name is refused; otherwise `slice(1)` renames, and a saved position is restored and cleared, or the channel goes past the largest child position |
| TicketHandler.TicketBot.OnMessageCreate | events/ticketHandler.js:83-92 | only a non-bot message by the owner of the channel's record refreshes its lastActivityTime; nothing else changes |
| TicketHandler.TicketBot.CleanupStaleTickets | events/ticketHandler.js:525-537 | the store after the loop is OrphanSweep of the store before |
| TicketHandler.TicketBot.AutoCloseInactiveTickets | events/ticketHandler.js:539-627 | the store after the loop is AutoCloseSweep, and the continuations are AutoCloseTimers |
| TicketHandler.TicketBot.FireAutoCloseTimer | events/ticketHandler.js:571-616 | on the captured channel: archive configured: moved, owner may not send, closedAt stamped if the record still exists; otherwise deleted; a vanished channel changes nothing |
| TicketHandler.TicketBot.AutoCloseInactiveTicketsIntended | events/ticketHandler.js:539-627 | corrected sweep: only open inactive records are selected, the store becomes AutoCloseSweepIntended and the continuations AutoCloseTimersIntended, and every record that got one is still stored with its channel |
| TicketHandler.TicketBot.DeleteOldClosedTickets | events/ticketHandler.js:629-721 | the store after the loop is RetentionSweep, and exactly the RetentionChannels are deleted |
| TicketHandler.RetentionChannelsStep | events/ticketHandler.js:645-705 | one retention iteration deletes the record's channel iff it still resolves in the world left so far |
| TicketIds.ParseCloseTarget | events/ticketHandler.js:362-363 | the owner and channel read from a close id; its properties are CloseTargetRoundTrip and CloseTargetDashInOwner |
| TicketIds.ParseModalId | events/ticketHandler.js:275-279 | parts 2 to 4 of the modal id; its property is ModalIdRoundTrip |
| TicketIds.Dispatch | events/ticketHandler.js:95-137 | the router's prefix chain; its property is BuiltIdsDispatchToTheirHandler |
| JsStrings.ReplaceFirst | events/ticketHandler.js:362 | `replace` of the first occurrence; its properties are ReplaceFirstAtStart and ReplaceFirstAbsent |
| JsStrings.Trim | events/ticketHandler.js:281 | `trim()`; its properties are TrimSpec and TrimIdempotent |
| TicketModel.NeedsReload | events/ticketHandler.js:54 | the reload test of getConfig; its property is ReloadBoundary, and GetConfig reloads exactly when it holds |
| TicketModel.IsStaff | events/ticketHandler.js:377-379 | admin role, configured owner or ManageChannels; StaffGuard passes exactly when it holds, PinGuard when it and the bot's ManageChannels hold |
| TicketModel.PingOnCooldown | events/ticketHandler.js:486 | the six-hour cooldown test; its property is PingCooldownBoundary |
| TicketModel.Inactive | events/ticketHandler.js:541-545 | the inactivity selection; its property is InactivityBoundary |
| TicketModel.RetentionExpired | events/ticketHandler.js:631-635 | the retention selection; its property is RetentionBoundary |
| TicketModel.OrphanSweep | events/ticketHandler.js:525-537 | the store after the orphan sweep; its properties are OrphanSweepProperties, and CleanupStaleTickets computes it |
| TicketModel.AutoCloseSweep | events/ticketHandler.js:539-627 | the store after the inactivity sweep; its properties are AutoCloseSweepProperties and AutoClosedChannelLosesItsRecord, and AutoCloseInactiveTickets computes it |
| TicketModel.RetentionSweep | events/ticketHandler.js:629-721 | the store after the retention sweep; its properties are RetentionSweepProperties, and DeleteOldClosedTickets computes it |
| TicketModel.PinnedName | events/ticketHandler.js:855 | the marker prepended to the name; UnpinIntendedRoundTrip inverts it and HandleTicketPin applies it |
| TicketModel.UnpinnedName | events/ticketHandler.js:1220 | `slice(1)`; UnpinLeavesLowSurrogate shows it does not invert PinnedName |
| TicketModel.NeedsPrompt | events/ticketHandler.js:172-179 | no fetched message is the bot's welcome embed; its property is PromptSeenAfterPosting |
| TicketHandler.PromptGuilds | events/ticketHandler.js:161-186 | the guilds the setup loop posts in; PlanPrompts computes it and SetupPostsOnce shows a second run posts nothing |
| Scenarios.Lifecycle | events/ticketHandler.js:359-455 | with creation at :272-356 and reopen at :1040-1113: create with reason "refund", close by the owner, fire, reopen: closedAt set then cleared, archive then active category, send revoked then restored |
| Scenarios.PinThenUnpin | events/ticketHandler.js:1181-1268 | after the pin at :816-925: pin goes below the pinned sibling, unpin restores the position exactly, but the name gains a lone low surrogate |
| Scenarios.PingCooldown | events/ticketHandler.js:465-523 | first ping accepted; one second later refused until six hours after the first; at six hours accepted |
| Scenarios.AutoCloseAsWritten | events/ticketHandler.js:539-721 | and the reopen lookup at :1057-1063: after auto-close and a retention sweep 25 h later, no record remains, the archived channel stays, and reopening finds no ticket data |
| Scenarios.AutoCloseIntended | events/ticketHandler.js:539-721 | with the corrected sweep, closedAt is stamped, the next hourly sweep at 74 h schedules nothing, and the retention sweep 25 h after the stamp deletes record and channel |

## Left out

- Embeds, buttons, modals, replies, follow-ups, direct messages and the ticket-type capitalisation are user interface; a handler's reply is `Outcome` (accepted, or the rejection reason).
- Transcript generation (`../utils/generateTranscript`), icons and banners are foreign modules. In the retention sweep a transcript failure is caught before `channel.delete` (`:650-709`), so it changes nothing that is deleted.
- HandleTicketDelete: modelled as if transcript generation always succeeds; when it throws (`:954`), the catch at `:1031` skips scheduling the deletion at `:1023`, which the model does not capture.
- Timer scheduling (`setTimeout`, `setInterval` in `clientReady`) and interleavings at each `await` are not modelled: each continuation is a separate `Fire…Timer` step, each sweep one uninterrupted call, and `clientReady` is `LoadConfig` followed later by `SetupTicketChannels`.
- Failures of Discord or MongoDB calls are not modelled (every call succeeds), except a failing configuration query (`storeAvailable`), a failing message fetch (a channel missing from `history`), an unknown user (`usernames`), and calls on a channel that no longer exists, which fail and change nothing (`ChannelUnavailable`, and the `Fire…Timer` methods).
- Permission overwrites are reduced to whether each user may send messages; the overwrites for `@everyone` and for the admin role at channel creation, and View/AddReactions bits, are not modelled.
- Discord renumbers sibling channels when `setPosition` moves one; the model updates only the moved channel's position.
- `channel.parent` is modelled as the channel having a parent id; a parent id naming a category that does not exist is not distinguished.
- A close button id without a channel part (no '-', or nothing after it) never comes from the bot, whose ids always hold both parts (`:317`). `FireCloseTimer` models it anyway (`FetchesAll`): the fetch returns the whole channel collection, moving it throws and changes nothing, and without an archive category `delete()` on it deletes no channel while the owner's record is deleted (`:443-446`).
- `HandleTicketModalSubmit`: requires the new channel id to be fresh (neither an existing channel nor named by a record), which Discord's ids guarantee; it does not model discord.js refusing an undefined admin role in the overwrite list.
- `HandleTicketPin`, `HandleTicketUnpin`: a deleted interaction channel is checked before the name check, so for such a channel they reject with `ChannelUnavailable` where the code might first answer "already pinned" or "not pinned"; no state changes either way.
- `HandleReopenClosedTicket`: keeps the code's order of checks, with the active category (`:1076`) before the channel. For a deleted channel with a category configured, the code's `setParent` throws, and the catch at `:1114-1119` answers "Failed to reopen ticket". The model answers `ChannelUnavailable`. No state changes either way.
- The `Math.floor` timestamp formatting of the cooldown reply is display only; `CooldownActive` carries the millisecond time of the next allowed ping.
- commands/audio/soundboard.js is entirely commented out and unrelated voice streaming; it is not part of this model.

## Findings

| source | as written | input that shows it | evidently intended | confidence | as-written member | corrected member |
|---|---|---|---|---|---|---|
| events/ticketHandler.js:606-619 | the inactivity sweep deletes the record right after scheduling the close, so the continuation's `updateOne({ _id }, { closedAt })` matches nothing; and since its query (:543-545) does not skip closed tickets, a ticket closed by button is selected again and its record deleted the same way | a ticket of a configured guild with an archive category, owner silent for 73 h: after the sweep, the continuation and a retention sweep 25 h later, no record exists and the archived channel is never deleted, and reopen answers "Ticket data not found"; likewise a ticket closed by button at 60 h whose owner last wrote at 0 loses its record at the 73 h sweep (ClosedTicketLosesItsRecord) | keep the record so the continuation stamps closedAt, and add `closedAt: null` to the query so that later hourly sweeps leave the closed ticket alone; then the 24 h retention (the archive message promises it) deletes the channel | high, not executed | TicketModel.AutoClosedChannelLosesItsRecord | TicketHandler.TicketBot.AutoCloseInactiveTicketsIntended |
| events/ticketHandler.js:1220 | `currentName.slice(1)` removes one UTF-16 code unit, but '📌' is two (U+D83D U+DCCC) | any pinned name `📌x`: unpin renames it to U+DCCC followed by `x`, a lone surrogate, and the result no longer starts with the marker | remove the whole marker (`slice(2)`, or `slice('📌'.length)`) so unpin restores the original name | high, not executed | TicketModel.UnpinLeavesLowSurrogate | TicketModel.UnpinIntendedRoundTrip |
