/**
 * The consultation query shared by app/api/consultations/route.ts and
 * app/api/user/stats/route.ts: the rows of one user, newest update first.
 */
module Queries {
  import opened Wrappers
  import opened Store

  /** The role filter: a patient owns the rows with their `patientId`; any other role, the rows assigned to them. */
  predicate BelongsTo(c: Consultation, userId: string, userRole: string) {
    if userRole == "patient" then c.patientId == userId else c.doctorId == Some(userId)
  }

  /** The rows matching the role filter, in store order. */
  function ForUser(cs: seq<Consultation>, userId: string, userRole: string): (r: seq<Consultation>)
    ensures forall c :: multiset(r)[c] == if BelongsTo(c, userId, userRole) then multiset(cs)[c] else 0
    ensures |r| <= |cs|
  {
    if cs == [] then []
    else
      assert cs == [cs[0]] + cs[1..];
      (if BelongsTo(cs[0], userId, userRole) then [cs[0]] else []) + ForUser(cs[1..], userId, userRole)
  }

  predicate SortedByUpdatedDesc(s: seq<Consultation>) {
    forall i, j :: 0 <= i < j < |s| ==> s[i].updatedAt >= s[j].updatedAt
  }

  /** Places `c` before the first row updated no later than it. */
  function InsertByUpdated(c: Consultation, s: seq<Consultation>): (r: seq<Consultation>)
    requires SortedByUpdatedDesc(s)
    ensures SortedByUpdatedDesc(r)
    ensures multiset(r) == multiset(s) + multiset{c} && |r| == |s| + 1
    ensures forall x :: x in r ==> x in s || x == c
  {
    if s == [] || s[0].updatedAt <= c.updatedAt then [c] + s
    else
      var rest := InsertByUpdated(c, s[1..]);
      assert s == [s[0]] + s[1..];
      ConsSorted(s[0], s[1..], c, rest);
      [s[0]] + rest
  }

  /** A row no older than every row of a sorted tail, and than `c`, may head that tail with `c` added. */
  lemma ConsSorted(h: Consultation, t: seq<Consultation>, c: Consultation, rest: seq<Consultation>)
    requires SortedByUpdatedDesc([h] + t) && c.updatedAt < h.updatedAt
    requires SortedByUpdatedDesc(rest) && forall x :: x in rest ==> x in t || x == c
    ensures SortedByUpdatedDesc([h] + rest)
  {
    forall x | x in rest
      ensures x.updatedAt <= h.updatedAt
    {
      if x != c {
        var k :| 0 <= k < |t| && t[k] == x;
        assert ([h] + t)[0] == h && ([h] + t)[k + 1] == x;
      }
    }
    forall i, j | 0 <= i < j < |[h] + rest|
      ensures ([h] + rest)[i].updatedAt >= ([h] + rest)[j].updatedAt
    {
      if i > 0 {
        assert ([h] + rest)[i] == rest[i - 1] && ([h] + rest)[j] == rest[j - 1];
      } else {
        assert ([h] + rest)[j] in rest;
      }
    }
  }

  /** The rows ordered newest update first; the order among rows updated at the same moment is not specified. */
  function SortByUpdatedDesc(s: seq<Consultation>): (r: seq<Consultation>)
    ensures SortedByUpdatedDesc(r)
    ensures multiset(r) == multiset(s) && |r| == |s|
  {
    if s == [] then []
    else
      assert s == [s[0]] + s[1..];
      InsertByUpdated(s[0], SortByUpdatedDesc(s[1..]))
  }

  /** The rows a user sees, most recently updated first. */
  function Listing(cs: seq<Consultation>, userId: string, userRole: string): (r: seq<Consultation>)
    ensures SortedByUpdatedDesc(r)
    ensures forall c :: multiset(r)[c] == if BelongsTo(c, userId, userRole) then multiset(cs)[c] else 0
    ensures |r| == |ForUser(cs, userId, userRole)|
  {
    SortByUpdatedDesc(ForUser(cs, userId, userRole))
  }

  /** The listing holds exactly the user's rows under the role filter. */
  lemma {:induction false} ListingMembers(cs: seq<Consultation>, userId: string, userRole: string, c: Consultation)
    ensures c in Listing(cs, userId, userRole) <==> c in cs && BelongsTo(c, userId, userRole)
  {
    var r := Listing(cs, userId, userRole);
    assert c in r <==> multiset(r)[c] > 0;
    assert c in cs <==> multiset(cs)[c] > 0;
  }

  /** Taking the first `n` rows of the listing keeps the most recently updated ones. */
  lemma {:induction false} PrefixIsMostRecent(cs: seq<Consultation>, userId: string, userRole: string, n: nat)
    ensures var r := Listing(cs, userId, userRole);
      forall i, j :: 0 <= i < n && i < |r| && n <= j < |r| ==> r[i].updatedAt >= r[j].updatedAt
  {
  }
}
