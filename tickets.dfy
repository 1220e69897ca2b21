/** The ticket lifecycle over an in-memory channel directory: the
    `create_ticket` and `close_ticket` button handlers and the deferred
    deletion, each as a function from the directory before to the directory
    after and the reply the user sees. */
module Tickets {
  import opened Wrappers
  import opened Naming
  import opened Policy
  import opened Channels

  /** The guild's channels in cache order, the channels whose deletion timer
      is running (in the order the timers were set, so the order they fire
      in), and the id the platform will give the next channel. */
  datatype Directory = Directory(channels: seq<Channel>, pending: seq<ChannelId>, nextId: nat)

  /** Channel ids are distinct and below the next id to be handed out. */
  predicate WellFormed(d: Directory) {
    && (forall i, j :: 0 <= i < j < |d.channels| ==> d.channels[i].id != d.channels[j].id)
    && (forall k :: 0 <= k < |d.channels| ==> d.channels[k].id < d.nextId)
  }

  /** No two channels share a `ticket-…` name: a user has at most one channel
      that still looks like an open ticket. */
  predicate OneTicketPerName(chs: seq<Channel>) {
    forall i, j ::
      0 <= i < |chs| && 0 <= j < |chs| && i != j && StartsWith(chs[i].name, TicketPrefix) ==>
        chs[i].name != chs[j].name
  }

  /** The reply to `create_ticket`. */
  datatype CreateReply =
    | AlreadyExists(existing: Channel)
    | Created(channel: Channel)
    | ProvisioningFailed

  /** What the platform did with the calls of one `create_ticket`: whether
      `guild.channels.create` succeeded, and whether the welcome message and
      the final reply then went out. */
  datatype CreateOutcome = CreateOutcome(created: bool, welcomed: bool)

  /** The reply to `close_ticket`. */
  datatype CloseReply =
    | NotTextChannel
    | NotATicket
    | Unauthorized
    | Closing
    | CloseFailed

  /** What the platform did with the calls of one `close_ticket`: the rename,
      the permission edit, and the "Closing ticket" reply. */
  datatype CloseOutcome = CloseOutcome(renamed: bool, revoked: bool, replied: bool)

  /** The parent category of a new ticket: set only when configured. */
  function ParentFor(cfg: Config): (parent: Option<string>)
    ensures parent.Some? <==> Configured(cfg.ticketCategoryId)
    ensures parent.Some? ==> parent == cfg.ticketCategoryId
  {
    if Configured(cfg.ticketCategoryId) then cfg.ticketCategoryId else None
  }

  /** The channel `create_ticket` asks the platform for. */
  predicate IsNewTicket(ch: Channel, id: ChannelId, guildId: string, cfg: Config, userId: string) {
    && ch.id == id
    && ch.kind == GuildText
    && ch.name == TicketName(userId)
    && ch.parent == ParentFor(cfg)
    && ch.overwrites == TicketOverwrites(guildId, userId, cfg.staffRoleId)
  }

  predicate Accepted(reply: CloseReply) {
    reply == Closing || reply == CloseFailed
  }

  /** The three checks `close_ticket` makes before it acts: a text channel,
      a `ticket-` name, and an actor allowed to close the owner's ticket. */
  predicate Closable(ch: Channel, cfg: Config, actor: Actor) {
    && ch.kind == GuildText
    && StartsWith(ch.name, TicketPrefix)
    && CanClose(cfg, actor, OwnerOf(ch.name).value)
  }

  /** `ch` as left by an accepted close, given which best-effort steps the
      platform carried out. */
  function ClosedVersion(ch: Channel, out: CloseOutcome): (c: Channel)
    requires StartsWith(ch.name, TicketPrefix)
    ensures c.id == ch.id && c.kind == ch.kind && c.parent == ch.parent
    ensures StartsWith(c.name, TicketPrefix) <==> !out.renamed
    ensures out.renamed ==> StartsWith(c.name, ClosedPrefix) && c.name[|ClosedPrefix|..] == ch.name
    ensures !out.renamed ==> c.name == ch.name
    ensures out.revoked ==> && OwnerOf(ch.name).value in Deniers(c.overwrites, ViewChannel)
                            && OwnerOf(ch.name).value !in Grantees(c.overwrites, ViewChannel)
    ensures !out.revoked ==> c.overwrites == ch.overwrites
  {
    ch.(name := if out.renamed then ClosedName(ch.name) else ch.name,
        overwrites := if out.revoked then RevokeView(ch.overwrites, OwnerOf(ch.name).value) else ch.overwrites)
  }

  /** The `create_ticket` handler. A channel already named `ticket-<userId>`
      is reported back and nothing changes; otherwise a private text channel
      of that name is created, and the reply says whether the whole handler
      got through. */
  function CreateStep(d: Directory, guildId: string, cfg: Config, userId: string, out: CreateOutcome)
    : (r: (Directory, CreateReply))
    ensures r.1.AlreadyExists? <==> exists k :: 0 <= k < |d.channels| && d.channels[k].name == TicketName(userId)
    ensures r.1.AlreadyExists? ==> r.0 == d && r.1.existing in d.channels && r.1.existing.name == TicketName(userId)
    ensures r.0.pending == d.pending
    ensures !out.created || r.1.AlreadyExists? ==> r.0 == d
    ensures r.0.channels == d.channels
            || (&& !r.1.AlreadyExists? && out.created
                && |r.0.channels| == |d.channels| + 1
                && r.0.channels == d.channels + [r.0.channels[|d.channels|]]
                && IsNewTicket(r.0.channels[|d.channels|], d.nextId, guildId, cfg, userId))
    ensures |r.0.channels| > |d.channels| <==> !r.1.AlreadyExists? && out.created
    ensures r.0.nextId == if |r.0.channels| > |d.channels| then d.nextId + 1 else d.nextId
    ensures r.1.Created? <==> !r.1.AlreadyExists? && out.created && out.welcomed
    ensures r.1.Created? ==> r.1.channel == r.0.channels[|d.channels|]
  {
    var name := TicketName(userId);
    match FindByName(d.channels, name)
    case Some(i) => (d, AlreadyExists(d.channels[i]))
    case None =>
      if !out.created then (d, ProvisioningFailed)
      else
        var ch := Channel(d.nextId, GuildText, name, ParentFor(cfg), TicketOverwrites(guildId, userId, cfg.staffRoleId));
        var d' := d.(channels := d.channels + [ch], nextId := d.nextId + 1);
        (d', if out.welcomed then Created(ch) else ProvisioningFailed)
  }

  /** The `close_ticket` handler, pressed by `actor` in channel `at`. It checks
      in order that the channel is a text channel, that its name starts with
      `ticket-`, and that the actor may close it; then, as far as the platform
      lets it, it renames the channel `closed-…`, denies the owner View, and
      (once the reply is out) queues the channel for deletion. */
  function CloseStep(d: Directory, cfg: Config, actor: Actor, at: Option<ChannelId>, out: CloseOutcome)
    : (r: (Directory, CloseReply))
    ensures !Accepted(r.1) ==> r.0 == d
    ensures Accepted(r.1) ==> && at.Some? && FindById(d.channels, at.value).Some?
                              && Closable(d.channels[FindById(d.channels, at.value).value], cfg, actor)
    ensures r.1 == Closing <==> Accepted(r.1) && out.replied
    ensures r.1 == Closing ==> at.Some? && r.0.pending == d.pending + [at.value]
    ensures r.1 != Closing ==> r.0.pending == d.pending
    ensures |r.0.channels| == |d.channels| && r.0.nextId == d.nextId
  {
    var found := if at.Some? then FindById(d.channels, at.value) else None;
    if found.None? || d.channels[found.value].kind != GuildText then (d, NotTextChannel)
    else
      var i := found.value;
      var ch := d.channels[i];
      if !StartsWith(ch.name, TicketPrefix) then (d, NotATicket)
      else
        var ownerId := OwnerOf(ch.name).value;
        if !CanClose(cfg, actor, ownerId) then (d, Unauthorized)
        else
          var chs := d.channels[i := ClosedVersion(ch, out)];
          if out.replied then (d.(channels := chs, pending := d.pending + [ch.id]), Closing)
          else (d.(channels := chs), CloseFailed)
  }

  /** The oldest deletion timer fires: `channel.delete` removes the channel if
      it is still there and the platform accepts; a failure is only logged. */
  function FireStep(d: Directory, deleted: bool): (r: Directory)
    requires |d.pending| > 0
    ensures r.pending == d.pending[1..] && r.nextId == d.nextId
    ensures !deleted ==> r.channels == d.channels
    ensures forall c :: c in r.channels ==> c in d.channels
    ensures |r.channels| >= |d.channels| - 1
  {
    var rest := d.pending[1..];
    match FindById(d.channels, d.pending[0])
    case Some(i) =>
      if deleted then d.(channels := d.channels[..i] + d.channels[i + 1..], pending := rest)
      else d.(pending := rest)
    case None => d.(pending := rest)
  }

  /** With distinct ids, the channel `FindById` gives is the only one with
      that id. */
  lemma FoundIsUnique(d: Directory, id: ChannelId)
    requires WellFormed(d)
    ensures FindById(d.channels, id).Some? ==>
              forall k :: 0 <= k < |d.channels| && d.channels[k].id == id ==> k == FindById(d.channels, id).value
  {
  }

  /** The close is accepted exactly when the channel it was pressed in passes
      the three checks; an accepted close changes that channel, which is the
      only one with its id, into its `ClosedVersion` and leaves every other
      channel as it was. */
  lemma CloseEffects(d: Directory, cfg: Config, actor: Actor, at: Option<ChannelId>, out: CloseOutcome)
    requires WellFormed(d)
    ensures var (d', reply) := CloseStep(d, cfg, actor, at, out);
            && (Accepted(reply) <==>
                  at.Some? && exists k :: 0 <= k < |d.channels| && d.channels[k].id == at.value
                                          && Closable(d.channels[k], cfg, actor))
            && (Accepted(reply) ==>
                  var i := FindById(d.channels, at.value).value;
                  && (forall k :: 0 <= k < |d.channels| && d.channels[k].id == at.value ==> k == i)
                  && d'.channels == d.channels[i := ClosedVersion(d.channels[i], out)])
  {
    var (d', reply) := CloseStep(d, cfg, actor, at, out);
    if at.Some? {
      FoundIsUnique(d, at.value);
      var found := FindById(d.channels, at.value);
      if found.Some? {
        var i := found.value;
        var ch := d.channels[i];
        if Closable(ch, cfg, actor) {
          assert reply != NotTextChannel && reply != NotATicket && reply != Unauthorized;
          assert d'.channels == d.channels[i := ClosedVersion(ch, out)];
        } else {
          assert d' == d && !Accepted(reply);
        }
      }
    }
  }

  /** Which refusal a failed check gives: no text channel with that id is
      `NotTextChannel`, a text channel whose name lacks `ticket-` is
      `NotATicket`, and a ticket the actor may not close is `Unauthorized`. */
  lemma CloseRefusals(d: Directory, cfg: Config, actor: Actor, at: Option<ChannelId>, out: CloseOutcome)
    requires WellFormed(d)
    ensures var reply := CloseStep(d, cfg, actor, at, out).1;
            && (reply == NotTextChannel <==>
                  !(at.Some? && exists k :: 0 <= k < |d.channels| && d.channels[k].id == at.value
                                            && d.channels[k].kind == GuildText))
            && (reply == NotATicket <==>
                  at.Some? && exists k :: 0 <= k < |d.channels| && d.channels[k].id == at.value
                                          && d.channels[k].kind == GuildText
                                          && !StartsWith(d.channels[k].name, TicketPrefix))
            && (reply == Unauthorized <==>
                  at.Some? && exists k :: 0 <= k < |d.channels| && d.channels[k].id == at.value
                                          && d.channels[k].kind == GuildText
                                          && StartsWith(d.channels[k].name, TicketPrefix)
                                          && !CanClose(cfg, actor, OwnerOf(d.channels[k].name).value))
  {
    if at.Some? {
      FoundIsUnique(d, at.value);
    }
  }

  /** Creating keeps channel ids distinct and keeps `ticket-…` names unique:
      the only channel added has a name no channel had before. */
  lemma CreatePreserves(d: Directory, guildId: string, cfg: Config, userId: string, out: CreateOutcome)
    requires WellFormed(d) && OneTicketPerName(d.channels)
    ensures var d' := CreateStep(d, guildId, cfg, userId, out).0;
            WellFormed(d') && OneTicketPerName(d'.channels)
  {
  }

  /** Replacing one channel by one with the same id, and either the same
      name or a name that is not a ticket name, keeps both invariants. */
  lemma ReplacePreserves(d: Directory, i: nat, c: Channel)
    requires WellFormed(d) && OneTicketPerName(d.channels)
    requires i < |d.channels| && c.id == d.channels[i].id
    requires c.name == d.channels[i].name || !StartsWith(c.name, TicketPrefix)
    ensures var d' := d.(channels := d.channels[i := c]);
            WellFormed(d') && OneTicketPerName(d'.channels)
  {
  }

  /** Closing keeps channel ids distinct and keeps `ticket-…` names unique:
      a renamed ticket is called `closed-…`, which is not a ticket name. */
  lemma ClosePreserves(d: Directory, cfg: Config, actor: Actor, at: Option<ChannelId>, out: CloseOutcome)
    requires WellFormed(d) && OneTicketPerName(d.channels)
    ensures var d' := CloseStep(d, cfg, actor, at, out).0;
            WellFormed(d') && OneTicketPerName(d'.channels)
  {
    var (d', reply) := CloseStep(d, cfg, actor, at, out);
    if Accepted(reply) {
      var i := FindById(d.channels, at.value).value;
      var c := ClosedVersion(d.channels[i], out);
      ReplacePreserves(d, i, c);
      assert d' == d.(channels := d.channels[i := c]) || d' == d.(channels := d.channels[i := c], pending := d.pending + [at.value]);
    }
  }

  /** A deletion removes the channel at the head of the queue and no other:
      every channel with a different id is still in the directory. */
  lemma FireRemovesOnlyHead(d: Directory, deleted: bool)
    requires WellFormed(d) && |d.pending| > 0
    ensures var d' := FireStep(d, deleted);
            && (forall c :: c in d.channels && c.id != d.pending[0] ==> c in d'.channels)
            && (deleted ==> forall c :: c in d'.channels ==> c.id != d.pending[0])
  {
  }

  /** A deletion keeps the cache order: the channels left are the ones
      before, in the same order, less those with the queued id. */
  lemma FireKeepsOrder(d: Directory, deleted: bool)
    requires WellFormed(d) && |d.pending| > 0
    ensures FireStep(d, deleted).channels == if deleted then Without(d.channels, d.pending[0]) else d.channels
  {
    var chs, id := d.channels, d.pending[0];
    match FindById(chs, id)
    case Some(i) =>
      WithoutUnique(chs, i);
    case None =>
      WithoutAbsent(chs, id);
  }

  /** Deleting keeps channel ids distinct and keeps `ticket-…` names unique. */
  lemma FirePreserves(d: Directory, deleted: bool)
    requires WellFormed(d) && OneTicketPerName(d.channels) && |d.pending| > 0
    ensures var d' := FireStep(d, deleted);
            WellFormed(d') && OneTicketPerName(d'.channels)
  {
  }

  /** Pressing "Open Ticket" again, once a channel was created, changes
      nothing and points at the channel the first press made (or found). */
  lemma CreateIsIdempotent(d: Directory, guildId: string, cfg: Config, userId: string,
                           out1: CreateOutcome, out2: CreateOutcome)
    requires out1.created
    ensures var (d1, r1) := CreateStep(d, guildId, cfg, userId, out1);
            var again := CreateStep(d1, guildId, cfg, userId, out2);
            && again.0 == d1
            && again.1 == AlreadyExists(if r1.AlreadyExists? then r1.existing else d1.channels[|d.channels|])
  {
  }

  /** A ticket that was closed and renamed no longer blocks its owner: when
      `ticket-<userId>` was unique, the next "Open Ticket" creates a new one. */
  lemma ClosedTicketDoesNotBlockCreate(d: Directory, cfg: Config, actor: Actor, at: ChannelId,
                                       out: CloseOutcome, guildId: string, userId: string, out2: CreateOutcome)
    requires WellFormed(d) && OneTicketPerName(d.channels)
    requires exists k :: 0 <= k < |d.channels| && d.channels[k].id == at && d.channels[k].name == TicketName(userId)
    requires out.renamed
    requires Accepted(CloseStep(d, cfg, actor, Some(at), out).1)
    ensures var d1 := CloseStep(d, cfg, actor, Some(at), out).0;
            var r2 := CreateStep(d1, guildId, cfg, userId, out2);
            && !r2.1.AlreadyExists?
            && (out2.created ==> |r2.0.channels| == |d1.channels| + 1)
  {
  }

  /** Once a close has renamed the channel, pressing "Close Ticket" in it
      again is refused as not a ticket and changes nothing. */
  lemma ClosedTicketCannotBeClosedAgain(d: Directory, cfg: Config, actor: Actor, at: ChannelId,
                                        out: CloseOutcome, actor2: Actor, out2: CloseOutcome)
    requires WellFormed(d)
    requires out.renamed
    requires Accepted(CloseStep(d, cfg, actor, Some(at), out).1)
    ensures var d1 := CloseStep(d, cfg, actor, Some(at), out).0;
            CloseStep(d1, cfg, actor2, Some(at), out2) == (d1, NotATicket)
  {
    var d1 := CloseStep(d, cfg, actor, Some(at), out).0;
    CloseEffects(d, cfg, actor, Some(at), out);
    var k :| 0 <= k < |d.channels| && d.channels[k].id == at && Closable(d.channels[k], cfg, actor);
    assert d1.channels[k].id == at;
    var i := FindById(d1.channels, at).value;
    assert d1.channels[i].id == d.channels[i].id;
    assert i == k;
    assert d1.channels[k].name == ClosedName(d.channels[k].name);
  }

  /** After its timer fires and the platform deletes it, the channel is gone:
      a close pressed in it finds no text channel there. */
  lemma DeletedTicketIsGone(d: Directory, cfg: Config, actor: Actor, out: CloseOutcome)
    requires WellFormed(d) && |d.pending| > 0
    ensures var d' := FireStep(d, true);
            CloseStep(d', cfg, actor, Some(d.pending[0]), out) == (d', NotTextChannel)
  {
    var d' := FireStep(d, true);
    FireRemovesOnlyHead(d, true);
    forall j | 0 <= j < |d'.channels|
      ensures d'.channels[j].id != d.pending[0]
    {
      assert d'.channels[j] in d'.channels;
    }
    assert FindById(d'.channels, d.pending[0]).None?;
  }
}
