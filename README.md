# Support-ticket bot: a verified model of the ticket lifecycle

This project models the core of a Discord support-ticket bot (`index.js`):
how a user opens a private `ticket-<userId>` channel with the "Open Ticket"
button, how the owner or staff close it with the "Close Ticket" button, and
how the closed channel is deleted when its timer fires. The Discord client is
replaced by an in-memory channel directory: channels in cache order, each with
an id, a kind, a name, an optional parent category and a list of permission
overwrites, plus the queue of channels whose deletion timer is running.

Modules, one per concern:

- `Naming` (`naming.dfy`): the `ticket-`/`closed-` names and JavaScript's
  `String.prototype.split` with a string separator, from which the owner is
  read back (`name.split("ticket-")[1]`).
- `Policy` (`policy.dfy`): the configuration (`STAFF_ROLE_ID`,
  `TICKET_CATEGORY_ID`) as an explicit record, the actor with its possibly
  failed member fetch, and the owner-or-staff rule.
- `Command` (`command.dfy`): the `messageCreate` trigger, with
  `String.prototype.trim` over ECMAScript's white-space and line-terminator
  characters.
- `Channels` (`channels.dfy`): permissions, overwrites and channels; the
  overwrite list of a new ticket; the effect of
  `permissionOverwrites.edit(id, { ViewChannel: false })`; the first-match
  search of `Collection.find`.
- `Tickets` (`tickets.dfy`): the two button handlers and the timer as
  functions from the directory before to the directory after and the reply,
  and the lemmas about sequences of them.
- `GuildState` (`guild.dfy`): class `Guild`, whose methods change the channel
  list step by step as the handlers do and are proved equal to those
  functions, keeping the invariant that channel ids are distinct and no two
  channels share a `ticket-…` name. The methods require that invariant, so a
  guild that already holds two `ticket-X` channels (see "## Left out" for how
  one could arise) is outside what they model; the functions in `Tickets`
  have no such precondition.

Calls to the platform that can fail are parameters: `CreateOutcome` says
whether `guild.channels.create` succeeded and whether the welcome message and
reply then went out; `CloseOutcome` says whether the rename, the permission
edit and the "Closing ticket" reply succeeded; `FireDeletion` takes whether
`channel.delete` succeeded. The member fetch is the `member` field of
`Actor` (`None` when the fetch threw). Channel ids handed out by the platform
are modelled by a counter.

What the handlers do in the less obvious cases, as the code does it:

- An environment variable counts as set only when it is non-empty
  (JavaScript truthiness), for both the staff role and the category.
- A closed ticket is renamed `closed-ticket-<id>`, and that name does not
  block a new ticket for the same user. So while its deletion is pending, a
  user can have one closing and one open ticket. The proved invariant is
  the one the code keeps: at most one channel per `ticket-…` name. A close
  whose rename failed leaves the name `ticket-<id>`, which still blocks.
- A non-text channel and a non-ticket name get two different replies
  (`NotTextChannel`, `NotATicket`).
- If the channel is created but the welcome message or the reply then
  fails, the user is told the creation failed, yet the channel stays
  (`CreateStep` with `created` and not `welcomed`).
- If the "Closing ticket" reply fails, the handler's `catch` answers
  "Failed to close ticket" and the deletion is never scheduled. The rename and
  permission edit already made stay (`CloseFailed`).

## Model

| member | source | states |
|---|---|---|
| `Naming.IndexOf` | index.js:168 | the leftmost occurrence of the separator at or after a position, or none at all after it |
| `Naming.Split` | index.js:168 | split gives at least one piece, and joining the pieces with the separator gives back the input |
| `Naming.SplitCutsAtLeftmost` | index.js:168 | a split has a second piece exactly when the separator occurs, and the first piece is the text before its leftmost occurrence |
| `Naming.SplitPiecesFree` | index.js:168 | no piece of a split contains the separator |
| `Naming.TicketName` | index.js:105 | a ticket name starts with `ticket-` and carries the user id after it |
| `Naming.ClosedName` | index.js:187 | the renamed channel starts with `closed-`, keeps the old name after it, and no longer starts with `ticket-` |
| `Naming.OwnerOf` | index.js:168 | index 1 of the split is defined exactly when the name contains `ticket-`, so always for a name that passed the prefix check |
| `Naming.OwnerOfTicketName` | index.js:163-168 | for a `ticket-` name, the owner is the text after the prefix up to the next `ticket-` or the end |
| `Naming.OwnerRoundTrip` | index.js:168 | the owner read back from `ticket-<u>` is `u` if and only if `u` does not contain `ticket-` |
| `Policy.IsStaff` | index.js:177-179 | staff needs a fetched member; with no staff role set it is exactly ManageChannels; without ManageChannels it is exactly holding the configured role |
| `Policy.CanClose` | index.js:176-181 | the owner may always close; with no member record only the owner may; the staff role (when set) or ManageChannels lets a non-owner close; nothing else does |
| `Policy.CanCloseMonotone` | index.js:177-179 | more roles or gaining ManageChannels never removes the right to close; with no staff role set, roles do not matter |
| `Command.TrimStart` | index.js:36 | leading trim removes exactly a white-space prefix and leaves a suffix that starts with a non-white-space character |
| `Command.TrimEnd` | index.js:36 | trailing trim removes exactly a white-space suffix and leaves a prefix that ends with a non-white-space character |
| `Command.TrimStartPadded` | index.js:36 | leading trim of white space followed by a non-white-space character gives back exactly the text from that character on |
| `Command.TrimEndPadded` | index.js:36 | trailing trim of text ending in a non-white-space character followed by white space gives back exactly the text up to that character |
| `Command.TrimBlank` | index.js:36 | trimming both ends leaves nothing exactly when every character is white space |
| `Command.Trim` | index.js:36 | `trim()` is empty exactly for an all-white-space string, and otherwise neither starts nor ends with white space |
| `Command.TrimPadded` | index.js:36 | trimming a word padded with white space on both sides gives back the word |
| `Command.TrimmedIsCommand` | index.js:36 | content trims to `!ticket` if and only if it is `!ticket` with nothing but white space on either side |
| `Command.IsTicketCommand` | index.js:32-36 | the panel is posted if and only if the author is not a bot, the message is in a guild, and the content is `!ticket` with only white space around it |
| `Command.TicketCommandAccepted` | index.js:32-36 | `!ticket` with any white-space padding triggers the panel exactly when the author is not a bot and the message is in a guild |
| `Channels.TicketOverwrites` | index.js:73-101 | a new ticket grants each permission only to the owner (view, send, attach, embed, history) and the configured staff role (view, send, manage messages, history), and denies only View, only to @everyone |
| `Channels.RevokeView` | index.js:188 | after the edit the owner is denied View and no longer granted it; every other grant and denial is unchanged; the list grows by one entry only if the owner had none |
| `Channels.FirstWhere` | index.js:63-65 | the index found is the first channel that matches; none is found only when no channel matches |
| `Channels.FindByName` | index.js:63-65 | the existence check finds the first channel with exactly the ticket name, or reports that none has it |
| `Channels.FindById` | index.js:154-158 | the channel the button was pressed in is found when it is still in the directory |
| `Tickets.ParentFor` | index.js:111-114 | the new channel has a parent exactly when a category is configured, and it is that category |
| `Tickets.CreateStep` | index.js:56-148 | an existing `ticket-<u>` is returned and nothing changes; otherwise, if the platform creates it, exactly one text channel named `ticket-<u>` with the ticket overwrites and parent is added; `Created` only when the welcome also went out |
| `Tickets.CloseStep` | index.js:151-202 | a refused close changes nothing; an accepted close was pressed in a channel that is found and passes the three checks; deletion is queued exactly when the close is accepted and the reply went out; the number of channels is unchanged |
| `Tickets.CloseRefusals` | index.js:158-183 | a close gets `NotTextChannel` iff no text channel has that id, `NotATicket` iff that text channel's name lacks `ticket-`, `Unauthorized` iff it is a ticket the actor may not close |
| `Tickets.CloseEffects` | index.js:158-188 | a close is accepted exactly when the channel is a text channel with a `ticket-` name and the actor may close it; then only that channel, the only one with that id, changes: renamed to `closed-…` and the owner denied View, each if the platform allowed it |
| `Tickets.ClosedVersion` | index.js:186-188 | the closed channel keeps its id, kind and parent; it stops looking like a ticket exactly when the rename went through, then reading `closed-` plus the old name; when the edit went through the owner is denied View and no longer granted it; otherwise the name or the overwrites are as before |
| `Tickets.FireStep` | index.js:191-197 | the timer is consumed; the channels left are a subset of those before, at most one fewer, and all of them when deletion failed |
| `Channels.Without` | index.js:193 | the channels left after removing an id are those before without that id |
| `Channels.WithoutAbsent` | index.js:193 | removing an id no channel has changes nothing |
| `Channels.WithoutUnique` | index.js:193 | when one channel alone has the id, removing it drops exactly that position and keeps the rest in order |
| `Tickets.FireKeepsOrder` | index.js:191-197 | a deletion leaves the other channels in their cache order: the result is the directory less the queued id, or unchanged when deletion failed |
| `Tickets.FireRemovesOnlyHead` | index.js:191-197 | a deletion removes no channel but the queued one, and after a successful deletion no channel has its id |
| `Tickets.CreatePreserves` | index.js:63-116 | creating keeps channel ids distinct and `ticket-…` names unique |
| `Tickets.ClosePreserves` | index.js:186-188 | closing keeps channel ids distinct and `ticket-…` names unique |
| `Tickets.FirePreserves` | index.js:193 | deleting keeps channel ids distinct and `ticket-…` names unique |
| `Tickets.CreateIsIdempotent` | index.js:63-70 | once a create made or found the ticket, pressing again changes nothing and returns that same channel |
| `Tickets.ClosedTicketDoesNotBlockCreate` | index.js:186-187 | after a close renamed the user's unique ticket, the next create is not refused and adds a channel when the platform allows it |
| `Tickets.ClosedTicketCannotBeClosedAgain` | index.js:163-165 | once a close renamed the channel, a second close there is refused as not a ticket and changes nothing |
| `Tickets.DeletedTicketIsGone` | index.js:191-197 | after its timer deleted the channel, a close aimed at it finds no text channel and changes nothing |
| `GuildState.Guild.CreateTicket` | index.js:56-148 | the handler, building the overwrite list with a conditional push and the options with a conditional parent, leaves the directory and reply given by `CreateStep` and keeps the invariant |
| `GuildState.Guild.TicketPermissions` | index.js:73-101 | the list built with the conditional staff push is exactly the ticket overwrite list |
| `GuildState.Guild.MarkClosed` | index.js:186-187 | the rename then the owner's View revoke, each only if the platform accepts, turn the channel into its closed version and touch no other channel, timer or id |
| `GuildState.Guild.CloseTicket` | index.js:151-202 | the handler, renaming, editing and scheduling in that order, leaves the directory and reply given by `CloseStep` and keeps the invariant |
| `GuildState.Guild.FireDeletion` | index.js:191-197 | the timer callback leaves the directory given by `FireStep` and keeps the invariant |

## Left out

- Client construction, intents, partials, `dotenv`, login and the ready log (index.js:1-29, 205): process bootstrap and I/O.
- Embeds, buttons, mentions and reply texts (index.js:37-48, 118-141): presentation. Each reply is a constructor of `CreateReply` or `CloseReply`, and posting the panel is the truth of `Command.IsTicketCommand`.
- The audit-reason strings passed to `create` and `delete` (index.js:108, 193): they change no state the model keeps.
- The 5-second delay (index.js:191): wall-clock time is not modelled. The running timers are a queue, and `FireDeletion` is the moment the oldest one fires. All delays are equal, so timers fire in the order they were set.
- Interleaving of handlers at `await` points, including the race between the existence check and `guild.channels.create` (index.js:63-116): each handler is modelled as one atomic step.
- Why a platform call fails (privileges, role hierarchy, rate limits, a channel already gone): each call's success is an input flag.
- How Discord computes ManageChannels for a member, including the Administrator override that discord.js applies: the member record carries the computed flag.
- `deferReply`, `isButton`, and `console.error` logging: plumbing with no effect on the directory.
- Channels created or deleted by other means than the bot: the directory changes only through the three modelled steps.
- `GuildState.Guild.CreateTicket`, `GuildState.Guild.CloseTicket`, `GuildState.Guild.FireDeletion`: they require `Valid()`, so a guild that already holds two channels named `ticket-X` is not covered by the methods. The step functions `Tickets.CreateStep`, `Tickets.CloseStep` and `Tickets.FireStep` have no such requirement, and `FindByName` there takes the first match as `cache.find` does.
