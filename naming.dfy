/** The identifier scheme of the ticket bot: a user's ticket channel is called
    `ticket-<userId>`, a closing ticket is renamed `closed-ticket-<userId>`, and
    the owner is recovered from a channel name with JavaScript's
    `name.split("ticket-")[1]`. */
module Naming {
  import opened Wrappers

  const TicketPrefix: string := "ticket-"
  const ClosedPrefix: string := "closed-"

  predicate StartsWith(s: string, prefix: string) {
    |prefix| <= |s| && s[..|prefix|] == prefix
  }

  /** `pat` occurs in `s` starting at index `i`. */
  predicate OccursAt(s: string, pat: string, i: int) {
    0 <= i && i + |pat| <= |s| && s[i..i + |pat|] == pat
  }

  predicate Contains(s: string, pat: string) {
    exists i :: 0 <= i <= |s| && OccursAt(s, pat, i)
  }

  /** The leftmost occurrence of `pat` in `s` at or after `from`, as
      JavaScript's `String.prototype.indexOf(pat, from)` finds it. */
  function IndexOf(s: string, pat: string, from: nat): (r: Option<nat>)
    requires |pat| > 0
    ensures r.Some? ==> from <= r.value && OccursAt(s, pat, r.value)
    ensures r.Some? ==> forall j :: from <= j < r.value ==> !OccursAt(s, pat, j)
    ensures r.None? ==> forall j :: from <= j ==> !OccursAt(s, pat, j)
    decreases |s| - from
  {
    if from + |pat| > |s| then None
    else if s[from..from + |pat|] == pat then Some(from)
    else IndexOf(s, pat, from + 1)
  }

  /** Puts the pieces back together with `sep` between them (JavaScript's
      `Array.prototype.join`). */
  function Join(parts: seq<string>, sep: string): string {
    if |parts| == 0 then ""
    else if |parts| == 1 then parts[0]
    else parts[0] + sep + Join(parts[1..], sep)
  }

  /** JavaScript's `s.split(sep)` for a non-empty separator string: cut at each
      leftmost, non-overlapping occurrence of `sep`, scanning left to right. */
  function Split(s: string, sep: string): (parts: seq<string>)
    requires |sep| > 0
    ensures |parts| >= 1
    ensures Join(parts, sep) == s
    decreases |s|
  {
    match IndexOf(s, sep, 0)
    case None => [s]
    case Some(i) =>
      var rest := Split(s[i + |sep|..], sep);
      assert s == s[..i] + sep + s[i + |sep|..];
      [s[..i]] + rest
  }

  /** An occurrence inside a prefix of `s` is an occurrence in `s`. */
  lemma OccursInPrefix(s: string, pat: string, n: nat, j: int)
    requires n <= |s|
    requires OccursAt(s[..n], pat, j)
    ensures OccursAt(s, pat, j)
  {
  }

  /** No piece of a split contains the separator: the cuts were made at every
      occurrence. */
  lemma {:induction false} SplitPiecesFree(s: string, sep: string)
    requires |sep| > 0
    ensures forall k :: 0 <= k < |Split(s, sep)| ==> !Contains(Split(s, sep)[k], sep)
    decreases |s|
  {
    match IndexOf(s, sep, 0)
    case None =>
      assert Split(s, sep) == [s];
    case Some(i) =>
      var tail := s[i + |sep|..];
      SplitPiecesFree(tail, sep);
      assert Split(s, sep) == [s[..i]] + Split(tail, sep);
      forall j | 0 <= j <= i && OccursAt(s[..i], sep, j)
        ensures false
      {
        OccursInPrefix(s, sep, i, j);
      }
  }

  /** The first cut of a split is at the leftmost occurrence of the
      separator: there is a second piece exactly when `sep` occurs in `s`, and
      then the first piece runs up to that occurrence. */
  lemma SplitCutsAtLeftmost(s: string, sep: string)
    requires |sep| > 0
    ensures |Split(s, sep)| > 1 <==> IndexOf(s, sep, 0).Some?
    ensures |Split(s, sep)| > 1 ==> |Split(s, sep)[0]| == IndexOf(s, sep, 0).value
    ensures |Split(s, sep)| > 1 ==> Split(s, sep)[0] == s[..IndexOf(s, sep, 0).value]
  {
  }

  /** The name of the ticket channel of user `userId` (`ticket-${user.id}`). */
  function TicketName(userId: string): (name: string)
    ensures StartsWith(name, TicketPrefix)
    ensures name[|TicketPrefix|..] == userId
  {
    TicketPrefix + userId
  }

  /** The name a closing ticket gets (`closed-${channel.name}`). It no longer
      looks like a ticket, so the close button cannot act on it again. */
  function ClosedName(name: string): (closed: string)
    ensures !StartsWith(closed, TicketPrefix)
    ensures StartsWith(closed, ClosedPrefix) && closed[|ClosedPrefix|..] == name
  {
    ClosedPrefix + name
  }

  /** `name.split("ticket-")[1]`; `None` stands for JavaScript's `undefined`,
      which the index yields when the split has a single piece. */
  function OwnerOf(name: string): (owner: Option<string>)
    ensures owner.Some? <==> Contains(name, TicketPrefix)
    ensures StartsWith(name, TicketPrefix) ==> owner.Some?
  {
    var parts := Split(name, TicketPrefix);
    assert StartsWith(name, TicketPrefix) ==> OccursAt(name, TicketPrefix, 0);
    if |parts| > 1 then Some(parts[1]) else None
  }

  /** For a name that starts with `ticket-`, the owner is the text after the
      prefix up to (not including) the next `ticket-`, or to the end. */
  lemma OwnerOfTicketName(name: string)
    requires StartsWith(name, TicketPrefix)
    ensures var rest := name[|TicketPrefix|..];
            var owner := OwnerOf(name).value;
            && StartsWith(rest, owner)
            && (forall j :: 0 <= j < |owner| ==> !OccursAt(rest, TicketPrefix, j))
            && (owner == rest || OccursAt(rest, TicketPrefix, |owner|))
  {
    var p := TicketPrefix;
    var rest := name[|p|..];
    assert OccursAt(name, p, 0);
    assert IndexOf(name, p, 0) == Some(0);
    assert name[0 + |p|..] == rest;
    assert Split(name, p) == [name[..0]] + Split(rest, p);
    var owner := OwnerOf(name).value;
    assert owner == Split(rest, p)[0];
    match IndexOf(rest, p, 0)
    case None =>
      assert owner == rest;
    case Some(i) =>
      assert owner == rest[..i];
  }

  /** The owner recovered from `ticket-<u>` is `u` exactly when `u` itself does
      not contain `ticket-` (the scheme's assumption about user ids). */
  lemma OwnerRoundTrip(userId: string)
    ensures OwnerOf(TicketName(userId)) == Some(userId) <==> !Contains(userId, TicketPrefix)
  {
    var name := TicketName(userId);
    OwnerOfTicketName(name);
    assert name[|TicketPrefix|..] == userId;
    var owner := OwnerOf(name).value;
    if Contains(userId, TicketPrefix) {
      var j :| 0 <= j <= |userId| && OccursAt(userId, TicketPrefix, j);
      assert owner != userId;
    } else {
      assert !OccursAt(userId, TicketPrefix, |owner|);
    }
  }
}
