/** app/api/user/stats/route.ts: a user's counts and three most recently updated consultations. */
module StatsRoute {
  import opened Wrappers
  import opened Text
  import opened Store
  import opened Http
  import opened Queries

  /** The messages whose sender is `userId`, in store order, each as often as it is stored. */
  function SentMessages(ms: seq<Message>, userId: string): (r: seq<Message>)
    ensures forall m :: multiset(r)[m] == if m.senderId == userId then multiset(ms)[m] else 0
  {
    if ms == [] then []
    else
      assert ms == [ms[0]] + ms[1..];
      (if ms[0].senderId == userId then [ms[0]] else []) + SentMessages(ms[1..], userId)
  }

  /** The number of messages sent by `userId`, as counted by the message table. */
  function SentBy(ms: seq<Message>, userId: string): (n: nat)
    ensures n == |SentMessages(ms, userId)|
    ensures n <= |ms|
    ensures n == 0 <==> forall m :: m in ms ==> m.senderId != userId
  {
    if ms == [] then 0
    else
      assert ms == [ms[0]] + ms[1..];
      (if ms[0].senderId == userId then 1 else 0) + SentBy(ms[1..], userId)
  }

  datatype RecentEntry = RecentEntry(
    id: string,
    title: string,
    status: ConsultationStatus,
    createdAt: int,
    consultationType: ConsultationType)

  function Project(c: Consultation): RecentEntry {
    RecentEntry(c.id, c.title, c.status, c.createdAt, c.consultationType)
  }

  /** `take: 3` with the selected fields. */
  function Recent(rows: seq<Consultation>): (r: seq<RecentEntry>)
    ensures |r| == if |rows| < 3 then |rows| else 3
    ensures forall i :: 0 <= i < |r| ==> r[i] == Project(rows[i])
  {
    var n := if |rows| < 3 then |rows| else 3;
    seq(n, i requires 0 <= i < n => Project(rows[i]))
  }

  datatype UserStats = UserStats(consultations: nat, messages: nat, recent: seq<RecentEntry>)

  /** `GET`: the counts under the role filter (messages by sender only) and the three newest rows. */
  function Get(cs: seq<Consultation>, ms: seq<Message>, userId: Option<string>, userRole: Option<string>)
    : (r: Response<UserStats>)
    ensures r.BadRequest? <==> !Truthy(userId) || !Truthy(userRole)
    ensures r.BadRequest? ==> r.error == "Missing userId or userRole"
    ensures Truthy(userId) && Truthy(userRole) ==> r.Ok?
    ensures r.Ok? ==>
      var rows := Listing(cs, userId.value, userRole.value);
      && r.body.consultations == |rows|
      && r.body.messages == SentBy(ms, userId.value)
      && |r.body.recent| == (if |rows| < 3 then |rows| else 3)
      && forall i :: 0 <= i < |r.body.recent| ==> r.body.recent[i] == Project(rows[i])
  {
    if !Truthy(userId) || !Truthy(userRole) then BadRequest("Missing userId or userRole")
    else
      var rows := Listing(cs, userId.value, userRole.value);
      Ok(UserStats(|ForUser(cs, userId.value, userRole.value)|, SentBy(ms, userId.value), Recent(rows)))
  }

  /** The message count is the same whatever role is claimed. */
  lemma MessageCountIgnoresRole(cs: seq<Consultation>, ms: seq<Message>, userId: string, role1: string, role2: string)
    requires userId != "" && role1 != "" && role2 != ""
    ensures Get(cs, ms, Some(userId), Some(role1)).body.messages == Get(cs, ms, Some(userId), Some(role2)).body.messages
  {
  }

  /** Every matching consultation left out of `recent` was updated no later than each one shown. */
  lemma {:induction false} RecentAreNewest(cs: seq<Consultation>, ms: seq<Message>, userId: string, userRole: string)
    requires userId != "" && userRole != ""
    ensures var rows := Listing(cs, userId, userRole);
      var shown := |Get(cs, ms, Some(userId), Some(userRole)).body.recent|;
      forall i, j :: 0 <= i < shown <= j < |rows| ==> rows[i].updatedAt >= rows[j].updatedAt
  {
    PrefixIsMostRecent(cs, userId, userRole, |Get(cs, ms, Some(userId), Some(userRole)).body.recent|);
  }
}
