/** The guild as the bot's handlers see it: a channel list that
    `guild.channels.create`, `channel.setName`,
    `channel.permissionOverwrites.edit` and `channel.delete` change in place,
    and the deletion timers that `setTimeout` has running. */
module GuildState {
  import opened Wrappers
  import opened Naming
  import opened Policy
  import opened Channels
  import opened Tickets

  class Guild {
    /** The guild's id, which is also the id of its @everyone role. */
    const id: string
    var channels: seq<Channel>
    var pending: seq<ChannelId>
    var nextId: nat

    function Snapshot(): Directory
      reads this
    {
      Directory(channels, pending, nextId)
    }

    /** The invariant the handlers keep. The handlers are modelled only for
        a guild that satisfies it: one with two channels already named
        `ticket-X` (made by hand, or by two racing creates) is outside this
        model, although `cache.find` would then simply take the first. */
    predicate Valid()
      reads this
    {
      WellFormed(Snapshot()) && OneTicketPerName(channels)
    }

    constructor (guildId: string, initial: Directory)
      requires WellFormed(initial) && OneTicketPerName(initial.channels)
      ensures Valid()
      ensures id == guildId && Snapshot() == initial
    {
      id := guildId;
      channels := initial.channels;
      pending := initial.pending;
      nextId := initial.nextId;
    }

    /** The `create_ticket` button handler. */
    method CreateTicket(cfg: Config, userId: string, out: CreateOutcome) returns (reply: CreateReply)
      requires Valid()
      modifies this
      ensures Valid()
      ensures (Snapshot(), reply) == CreateStep(old(Snapshot()), id, cfg, userId, out)
    {
      CreatePreserves(Snapshot(), id, cfg, userId, out);
      var name := TicketName(userId);
      var existing := FindByName(channels, name);
      if existing.Some? {
        reply := AlreadyExists(channels[existing.value]);
        return;
      }
      var overwrites := TicketPermissions(userId, cfg.staffRoleId);
      var parent: Option<string> := None;
      if Configured(cfg.ticketCategoryId) {
        parent := cfg.ticketCategoryId;
      }
      if !out.created {
        reply := ProvisioningFailed;
        return;
      }
      var ticket := Channel(nextId, GuildText, name, parent, overwrites);
      channels := channels + [ticket];
      nextId := nextId + 1;
      reply := if out.welcomed then Created(ticket) else ProvisioningFailed;
    }

    /** The `permissionOverwrites` list a new ticket is created with, built
        the way the handler builds it: @everyone and the owner, then the
        staff role pushed on when one is configured. */
    method TicketPermissions(userId: string, staffRoleId: Option<string>) returns (overwrites: seq<Overwrite>)
      ensures overwrites == TicketOverwrites(id, userId, staffRoleId)
    {
      overwrites := [Overwrite(id, {}, {ViewChannel}), Overwrite(userId, OwnerAllow, {})];
      if Configured(staffRoleId) {
        overwrites := overwrites + [Overwrite(staffRoleId.value, StaffAllow, {})];
      }
    }

    /** The `close_ticket` button handler, pressed by `actor` in channel `at`. */
    method CloseTicket(cfg: Config, actor: Actor, at: Option<ChannelId>, out: CloseOutcome) returns (reply: CloseReply)
      requires Valid()
      modifies this
      ensures Valid()
      ensures (Snapshot(), reply) == CloseStep(old(Snapshot()), cfg, actor, at, out)
    {
      ghost var d := Snapshot();
      ClosePreserves(d, cfg, actor, at, out);
      if at.None? {
        return NotTextChannel;
      }
      var found := FindById(channels, at.value);
      if found.None? || channels[found.value].kind != GuildText {
        return NotTextChannel;
      }
      var i := found.value;
      if !StartsWith(channels[i].name, TicketPrefix) {
        return NotATicket;
      }
      var ownerId := OwnerOf(channels[i].name).value;
      if !CanClose(cfg, actor, ownerId) {
        return Unauthorized;
      }
      MarkClosed(i, ownerId, out);
      if !out.replied {
        return CloseFailed;
      }
      pending := pending + [channels[i].id];
      reply := Closing;
    }

    /** The two best-effort steps of an accepted close, in the handler's
        order: `channel.setName` to `closed-…`, then the permission edit that
        denies the owner View; each happens only if the platform accepts. */
    method MarkClosed(i: nat, ownerId: string, out: CloseOutcome)
      requires i < |channels| && StartsWith(channels[i].name, TicketPrefix)
      requires ownerId == OwnerOf(channels[i].name).value
      modifies this
      ensures channels == old(channels)[i := ClosedVersion(old(channels[i]), out)]
      ensures pending == old(pending) && nextId == old(nextId)
    {
      ghost var before := channels[i];
      if out.renamed {
        channels := channels[i := channels[i].(name := ClosedName(channels[i].name))];
      }
      if out.revoked {
        channels := channels[i := channels[i].(overwrites := RevokeView(channels[i].overwrites, ownerId))];
      }
      assert channels[i] == ClosedVersion(before, out);
    }

    /** The oldest running deletion timer fires. */
    method FireDeletion(deleted: bool)
      requires Valid() && |pending| > 0
      modifies this
      ensures Valid()
      ensures Snapshot() == FireStep(old(Snapshot()), deleted)
    {
      FirePreserves(Snapshot(), deleted);
      var target := pending[0];
      pending := pending[1..];
      var found := FindById(channels, target);
      if found.Some? && deleted {
        var i := found.value;
        channels := channels[..i] + channels[i + 1..];
      }
    }
  }
}
