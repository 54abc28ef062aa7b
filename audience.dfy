/**
 * Audience resolution for the store-triggered handler: the members of the
 * message's community, with the sender filtered out.
 */
module Audience {
  import opened Values

  /** A community document: its display name and its member ids, either of which may be absent. */
  datatype Community = Community(name: Field, members: Option<seq<string>>)

  /** `communityData.members || []`: an absent member list reads as empty. */
  function MembersOf(c: Community): seq<string>
  {
    if c.members.Some? then c.members.value else []
  }

  /**
   * `members.filter(memberId => memberId !== senderId)`: every member other
   * than the sender, as often and in the order the member list has them.
   */
  function Recipients(members: seq<string>, senderId: string): (r: seq<string>)
    ensures |r| <= |members|
    ensures forall x :: multiset(r)[x] == if x == senderId then 0 else multiset(members)[x]
    ensures senderId !in r
    ensures forall x :: x in r <==> x in members && x != senderId
  {
    if members == [] then []
    else
      assert members == [members[0]] + members[1..];
      (if members[0] == senderId then [] else [members[0]]) + Recipients(members[1..], senderId)
  }

  /** Filtering commutes with concatenation, so the original order is kept. */
  lemma {:induction false} RecipientsConcat(a: seq<string>, b: seq<string>, senderId: string)
    ensures Recipients(a + b, senderId) == Recipients(a, senderId) + Recipients(b, senderId)
  {
    if a == [] {
      assert a + b == b;
    } else {
      assert (a + b)[0] == a[0];
      assert (a + b)[1..] == a[1..] + b;
      RecipientsConcat(a[1..], b, senderId);
    }
  }

  /** When the sender is not a member the audience is the whole member list. */
  lemma {:induction false} RecipientsWithoutSender(members: seq<string>, senderId: string)
    requires senderId !in members
    ensures Recipients(members, senderId) == members
  {
    if members != [] {
      RecipientsWithoutSender(members[1..], senderId);
      assert members == [members[0]] + members[1..];
    }
  }
}
