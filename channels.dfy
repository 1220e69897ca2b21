/** The slice of the guild's channel list the ticket flow touches: text or
    other channels with a name, an optional parent category and a list of
    permission overwrites, plus the overwrite list a new ticket gets and the
    effect of revoking the owner's view of a closing ticket. */
module Channels {
  import opened Wrappers
  import opened Policy

  /** The permission flags the ticket flow grants or denies. */
  datatype Permission =
    | ViewChannel
    | SendMessages
    | AttachFiles
    | EmbedLinks
    | ReadMessageHistory
    | ManageMessages

  /** One permission overwrite: a role or user id with its allowed and denied
      flags. The guild's own id names the @everyone role. */
  datatype Overwrite = Overwrite(id: string, allow: set<Permission>, deny: set<Permission>)

  datatype ChannelKind = GuildText | GuildVoice | GuildCategory | GuildAnnouncement | GuildForum

  type ChannelId = nat

  datatype Channel = Channel(
    id: ChannelId,
    kind: ChannelKind,
    name: string,
    parent: Option<string>,
    overwrites: seq<Overwrite>)

  /** What the ticket's owner is allowed in the new channel. */
  const OwnerAllow: set<Permission> :=
    {ViewChannel, SendMessages, AttachFiles, EmbedLinks, ReadMessageHistory}

  /** What the configured staff role is allowed in the new channel. */
  const StaffAllow: set<Permission> :=
    {ViewChannel, SendMessages, ManageMessages, ReadMessageHistory}

  datatype Side = Allowed | Denied

  predicate Has(o: Overwrite, p: Permission, side: Side) {
    if side == Allowed then p in o.allow else p in o.deny
  }

  /** The ids an overwrite list allows (or denies) permission `p`. */
  function Holders(ows: seq<Overwrite>, p: Permission, side: Side): set<string> {
    set k | 0 <= k < |ows| && Has(ows[k], p, side) :: ows[k].id
  }

  function Grantees(ows: seq<Overwrite>, p: Permission): set<string> {
    Holders(ows, p, Allowed)
  }

  function Deniers(ows: seq<Overwrite>, p: Permission): set<string> {
    Holders(ows, p, Denied)
  }

  predicate HasEntry(ows: seq<Overwrite>, id: string) {
    exists k :: 0 <= k < |ows| && ows[k].id == id
  }

  lemma HoldersSingle(o: Overwrite, p: Permission, side: Side)
    ensures Holders([o], p, side) == if Has(o, p, side) then {o.id} else {}
  {
    if Has(o, p, side) {
      assert [o][0].id in Holders([o], p, side);
    }
  }

  lemma HoldersAppend(a: seq<Overwrite>, b: seq<Overwrite>, p: Permission, side: Side)
    ensures Holders(a + b, p, side) == Holders(a, p, side) + Holders(b, p, side)
  {
    var ab := a + b;
    forall x | x in Holders(ab, p, side)
      ensures x in Holders(a, p, side) + Holders(b, p, side)
    {
      var k :| 0 <= k < |ab| && Has(ab[k], p, side) && ab[k].id == x;
      if k < |a| {
        assert ab[k] == a[k];
      } else {
        assert ab[k] == b[k - |a|];
      }
    }
    forall x | x in Holders(a, p, side)
      ensures x in Holders(ab, p, side)
    {
      var k :| 0 <= k < |a| && Has(a[k], p, side) && a[k].id == x;
      assert ab[k] == a[k];
    }
    forall x | x in Holders(b, p, side)
      ensures x in Holders(ab, p, side)
    {
      var k :| 0 <= k < |b| && Has(b[k], p, side) && b[k].id == x;
      assert ab[|a| + k] == b[k];
    }
  }

  /** The overwrite list of a new ticket for `userId`: @everyone may not see
      it, the owner may see, write, attach, embed and read history, and the
      staff role, when one is configured, may see, write, manage messages
      and read history. Nobody else is granted or denied anything. */
  function TicketOverwrites(guildId: string, userId: string, staffRoleId: Option<string>): (ows: seq<Overwrite>)
    ensures |ows| == if Configured(staffRoleId) then 3 else 2
    ensures forall p :: Grantees(ows, p) ==
              (if p in OwnerAllow then {userId} else {})
              + (if Configured(staffRoleId) && p in StaffAllow then {staffRoleId.value} else {})
    ensures forall p :: Deniers(ows, p) == if p == ViewChannel then {guildId} else {}
  {
    var everyone := Overwrite(guildId, {}, {ViewChannel});
    var owner := Overwrite(userId, OwnerAllow, {});
    var staff := Overwrite(if staffRoleId.Some? then staffRoleId.value else "", StaffAllow, {});
    var base := [everyone] + [owner];
    var ows := if Configured(staffRoleId) then base + [staff] else base;
    forall p, side: Side
      ensures Holders(ows, p, side) ==
                Holders([everyone], p, side) + Holders([owner], p, side)
                + (if Configured(staffRoleId) then Holders([staff], p, side) else {})
    {
      HoldersAppend([everyone], [owner], p, side);
      HoldersAppend(base, [staff], p, side);
    }
    forall p, side: Side
      ensures Holders([everyone], p, side) == if Has(everyone, p, side) then {guildId} else {}
      ensures Holders([owner], p, side) == if Has(owner, p, side) then {userId} else {}
      ensures Holders([staff], p, side) == if Has(staff, p, side) then {staff.id} else {}
    {
      HoldersSingle(everyone, p, side);
      HoldersSingle(owner, p, side);
      HoldersSingle(staff, p, side);
    }
    ows
  }

  /** The overwrite after `permissionOverwrites.edit(id, { ViewChannel: false })`
      on an existing entry: View moves from the allowed to the denied flags. */
  function WithoutView(o: Overwrite): Overwrite {
    o.(allow := o.allow - {ViewChannel}, deny := o.deny + {ViewChannel})
  }

  /** Every entry for `subject` edited by `WithoutView`, the others kept. */
  function EditEntries(ows: seq<Overwrite>, subject: string): (r: seq<Overwrite>)
    ensures |r| == |ows|
    ensures forall k :: 0 <= k < |ows| ==>
              r[k] == if ows[k].id == subject then WithoutView(ows[k]) else ows[k]
  {
    seq(|ows|, k requires 0 <= k < |ows| =>
                 if ows[k].id == subject then WithoutView(ows[k]) else ows[k])
  }

  lemma HoldersEdited(ows: seq<Overwrite>, subject: string, p: Permission, side: Side)
    ensures var r := EditEntries(ows, subject);
            Holders(r, p, side) ==
              if p != ViewChannel then Holders(ows, p, side)
              else if side == Allowed then Holders(ows, p, side) - {subject}
              else Holders(ows, p, side) + (if HasEntry(ows, subject) then {subject} else {})
  {
  }

  /** `permissionOverwrites.edit(subject, { ViewChannel: false })`: every entry
      for `subject` gets View denied; when there is none, a new entry that
      denies only View is added. Every other flag of every entry is kept. */
  function RevokeView(ows: seq<Overwrite>, subject: string): (r: seq<Overwrite>)
    ensures |r| == if HasEntry(ows, subject) then |ows| else |ows| + 1
    ensures forall k :: 0 <= k < |ows| && ows[k].id != subject ==> r[k] == ows[k]
    ensures forall p :: Grantees(r, p) ==
              if p == ViewChannel then Grantees(ows, p) - {subject} else Grantees(ows, p)
    ensures forall p :: Deniers(r, p) ==
              if p == ViewChannel then Deniers(ows, p) + {subject} else Deniers(ows, p)
  {
    var edited := EditEntries(ows, subject);
    var added := Overwrite(subject, {}, {ViewChannel});
    var r := if HasEntry(ows, subject) then edited else edited + [added];
    forall p, side: Side
      ensures Holders(r, p, side) ==
                Holders(edited, p, side) + (if HasEntry(ows, subject) then {} else Holders([added], p, side))
    {
      HoldersAppend(edited, [added], p, side);
    }
    forall p, side: Side
      ensures Holders([added], p, side) == if Has(added, p, side) then {subject} else {}
    {
      HoldersSingle(added, p, side);
    }
    forall p, side: Side
      ensures Holders(edited, p, side) ==
                if p != ViewChannel then Holders(ows, p, side)
                else if side == Allowed then Holders(ows, p, side) - {subject}
                else Holders(ows, p, side) + (if HasEntry(ows, subject) then {subject} else {})
    {
      HoldersEdited(ows, subject, p, side);
    }
    r
  }

  /** The index of the first channel that `matches`, in the order the guild's
      channel cache is walked by `Collection.find`. */
  function FirstWhere(chs: seq<Channel>, matches: Channel -> bool, from: nat): (r: Option<nat>)
    ensures r.Some? ==> from <= r.value < |chs| && matches(chs[r.value])
    ensures r.Some? ==> forall j :: from <= j < r.value ==> !matches(chs[j])
    ensures r.None? ==> forall j :: from <= j < |chs| ==> !matches(chs[j])
    decreases |chs| - from
  {
    if from >= |chs| then None
    else if matches(chs[from]) then Some(from)
    else FirstWhere(chs, matches, from + 1)
  }

  /** `guild.channels.cache.find((c) => c.name === name)`: the first channel
      with exactly that name, if any. */
  function FindByName(chs: seq<Channel>, name: string): (r: Option<nat>)
    ensures r.Some? ==> r.value < |chs| && chs[r.value].name == name
    ensures r.Some? ==> forall j :: 0 <= j < r.value ==> chs[j].name != name
    ensures r.None? <==> forall j :: 0 <= j < |chs| ==> chs[j].name != name
  {
    FirstWhere(chs, (c: Channel) => c.name == name, 0)
  }

  /** The position of the channel with id `id`, if it is still in the list. */
  function FindById(chs: seq<Channel>, id: ChannelId): (r: Option<nat>)
    ensures r.Some? ==> r.value < |chs| && chs[r.value].id == id
    ensures r.None? <==> forall j :: 0 <= j < |chs| ==> chs[j].id != id
  {
    FirstWhere(chs, (c: Channel) => c.id == id, 0)
  }

  /** `chs` with every channel whose id is `id` taken out, the others kept
      in their order. */
  function Without(chs: seq<Channel>, id: ChannelId): (r: seq<Channel>)
    ensures |r| <= |chs|
    ensures forall c :: c in r <==> c in chs && c.id != id
  {
    if |chs| == 0 then [] else (if chs[0].id == id then [] else [chs[0]]) + Without(chs[1..], id)
  }

  /** Taking out an id no channel has changes nothing. */
  lemma {:induction false} WithoutAbsent(chs: seq<Channel>, id: ChannelId)
    requires forall k :: 0 <= k < |chs| ==> chs[k].id != id
    ensures Without(chs, id) == chs
    decreases |chs|
  {
    if |chs| > 0 {
      WithoutAbsent(chs[1..], id);
    }
  }

  /** When only `chs[i]` has its id, taking that id out removes exactly
      position `i`. */
  lemma {:induction false} WithoutUnique(chs: seq<Channel>, i: nat)
    requires i < |chs|
    requires forall k :: 0 <= k < |chs| && k != i ==> chs[k].id != chs[i].id
    ensures Without(chs, chs[i].id) == chs[..i] + chs[i + 1..]
    decreases i
  {
    var id, tail := chs[i].id, chs[1..];
    if i == 0 {
      forall k | 0 <= k < |tail| ensures tail[k].id != id {
        assert tail[k] == chs[k + 1];
      }
      WithoutAbsent(tail, id);
      assert Without(chs, id) == Without(tail, id);
    } else {
      assert tail[i - 1] == chs[i];
      forall k | 0 <= k < |tail| && k != i - 1 ensures tail[k].id != id {
        assert tail[k] == chs[k + 1];
      }
      WithoutUnique(tail, i - 1);
      assert Without(chs, id) == [chs[0]] + Without(tail, id);
      assert chs[..i] == [chs[0]] + tail[..i - 1];
      assert chs[i + 1..] == tail[i..];
    }
  }
}
