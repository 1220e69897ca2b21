/** The bot's configuration and the authorization rule for closing a ticket:
    the owner, a holder of the configured staff role, or a member with the
    ManageChannels permission may close it. */
module Policy {
  import opened Wrappers

  /** The two optional environment variables, `STAFF_ROLE_ID` and
      `TICKET_CATEGORY_ID`, read once and passed in explicitly. */
  datatype Config = Config(staffRoleId: Option<string>, ticketCategoryId: Option<string>)

  /** An environment variable counts as set when it is truthy in JavaScript:
      present and not the empty string. */
  predicate Configured(setting: Option<string>) {
    setting.Some? && setting.value != ""
  }

  /** A guild member as `guild.members.fetch` returns it: `roles` stands for
      `member.roles.cache`, the ids of the roles it holds, which in discord.js
      always include the guild's own id (the @everyone role); and whether its
      permissions include ManageChannels. */
  datatype Member = Member(roles: set<string>, manageChannels: bool)

  /** The user who pressed the button, and the member record fetched for it
      (`None` when the fetch threw). */
  datatype Actor = Actor(id: string, member: Option<Member>)

  /** `isStaff`: the configured staff role is held, or ManageChannels is. */
  function IsStaff(cfg: Config, member: Option<Member>): (staff: bool)
    ensures staff ==> member.Some?
    ensures member.Some? && member.value.manageChannels ==> staff
    ensures !Configured(cfg.staffRoleId) ==> (staff <==> member.Some? && member.value.manageChannels)
    ensures member.Some? && !member.value.manageChannels ==>
              (staff <==> Configured(cfg.staffRoleId) && cfg.staffRoleId.value in member.value.roles)
  {
    || (Configured(cfg.staffRoleId) && member.Some? && cfg.staffRoleId.value in member.value.roles)
    || (member.Some? && member.value.manageChannels)
  }

  /** `isOwner || isStaff`, evaluated afresh on every close attempt. */
  function CanClose(cfg: Config, actor: Actor, ownerId: string): (allowed: bool)
    ensures actor.id == ownerId ==> allowed
    ensures actor.member.None? ==> (allowed <==> actor.id == ownerId)
    ensures actor.member.Some? && actor.member.value.manageChannels ==> allowed
    ensures (Configured(cfg.staffRoleId) && actor.member.Some?
             && cfg.staffRoleId.value in actor.member.value.roles) ==> allowed
    ensures allowed && actor.id != ownerId ==>
              && actor.member.Some?
              && (actor.member.value.manageChannels
                  || (Configured(cfg.staffRoleId) && cfg.staffRoleId.value in actor.member.value.roles))
  {
    var isOwner := actor.id == ownerId;
    isOwner || IsStaff(cfg, actor.member)
  }

  /** Holding more roles, or gaining ManageChannels, never takes the right to
      close away; with no staff role configured, roles do not matter at all. */
  lemma CanCloseMonotone(cfg: Config, id: string, m1: Member, m2: Member, ownerId: string)
    requires m1.roles <= m2.roles
    requires m1.manageChannels ==> m2.manageChannels
    ensures CanClose(cfg, Actor(id, Some(m1)), ownerId) ==> CanClose(cfg, Actor(id, Some(m2)), ownerId)
    ensures !Configured(cfg.staffRoleId) && m1.manageChannels == m2.manageChannels ==>
              CanClose(cfg, Actor(id, Some(m1)), ownerId) == CanClose(cfg, Actor(id, Some(m2)), ownerId)
  {
  }
}
