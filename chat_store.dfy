/**
 * app/api/messages/route.ts: the process-wide demo chat, a list of messages
 * that only grows and a list of typing indicators that expire after three
 * seconds. `Date.now()` is the parameter `now`.
 */
module ChatStore {
  import opened Wrappers
  import opened Text
  import opened Http

  const TypingWindow: int := 3000

  datatype ChatMessage = ChatMessage(id: string, content: Option<string>, sender: string, timestamp: int, readBy: seq<string>)
  datatype Typing = Typing(user: string, timestamp: int)

  predicate UniqueUsers(ts: seq<Typing>) {
    forall i, j :: 0 <= i < j < |ts| ==> ts[i].user != ts[j].user
  }

  /** The typing indicators set less than 3000 ms before `now`, in their order. */
  function Fresh(ts: seq<Typing>, now: int): (r: seq<Typing>)
    ensures |r| <= |ts|
    ensures forall t :: t in r <==> t in ts && now - t.timestamp < TypingWindow
  {
    if ts == [] then []
    else if now - ts[0].timestamp < TypingWindow then [ts[0]] + Fresh(ts[1..], now)
    else Fresh(ts[1..], now)
  }

  /** Every typing indicator except those of `sender`, in their order. */
  function Without(ts: seq<Typing>, sender: string): (r: seq<Typing>)
    ensures |r| <= |ts|
    ensures forall t :: t in r <==> t in ts && t.user != sender
  {
    if ts == [] then []
    else if ts[0].user != sender then [ts[0]] + Without(ts[1..], sender)
    else Without(ts[1..], sender)
  }

  function Users(ts: seq<Typing>): (users: seq<string>)
    ensures |users| == |ts| && forall i :: 0 <= i < |ts| ==> users[i] == ts[i].user
  {
    seq(|ts|, i requires 0 <= i < |ts| => ts[i].user)
  }

  /** Expiring indicators keeps at most one per user. */
  lemma {:induction false} FreshKeepsUnique(ts: seq<Typing>, now: int)
    requires UniqueUsers(ts)
    ensures UniqueUsers(Fresh(ts, now))
  {
    if ts != [] {
      FreshKeepsUnique(ts[1..], now);
      assert forall t :: t in ts[1..] ==> t.user != ts[0].user;
      assert Fresh(ts, now) == (if now - ts[0].timestamp < TypingWindow then [ts[0]] else []) + Fresh(ts[1..], now);
    }
  }

  /** Removing one user's indicators keeps at most one per user. */
  lemma {:induction false} WithoutKeepsUnique(ts: seq<Typing>, sender: string)
    requires UniqueUsers(ts)
    ensures UniqueUsers(Without(ts, sender))
  {
    if ts != [] {
      WithoutKeepsUnique(ts[1..], sender);
      assert forall t :: t in ts[1..] ==> t.user != ts[0].user;
      assert Without(ts, sender) == (if ts[0].user != sender then [ts[0]] else []) + Without(ts[1..], sender);
    }
  }

  /** The indicator list after a `typing` post from `sender`. */
  function AfterTyping(ts: seq<Typing>, sender: string, content: Option<string>, now: int): (r: seq<Typing>)
    requires UniqueUsers(ts)
    ensures UniqueUsers(r)
    ensures forall t :: t in r && t.user != sender <==> t in ts && t.user != sender
    ensures Truthy(content) ==> exists i :: 0 <= i < |r| && r[i] == Typing(sender, now)
    ensures !Truthy(content) ==> forall t :: t in r ==> t.user != sender
  {
    WithoutKeepsUnique(ts, sender);
    var rest := Without(ts, sender);
    if Truthy(content) then
      var r := rest + [Typing(sender, now)];
      assert r[|rest|] == Typing(sender, now);
      r
    else rest
  }

  datatype Posted = Acknowledged | Created(message: ChatMessage)

  class Chat {
    var messages: seq<ChatMessage>
    var typingUsers: seq<Typing>

    /** Each user has at most one typing indicator. */
    ghost predicate Valid()
      reads this
    {
      UniqueUsers(typingUsers)
    }

    constructor ()
      ensures Valid() && messages == [] && typingUsers == []
    {
      messages, typingUsers := [], [];
    }

    /** `GET`: expire the stale indicators, then report the messages and the users still typing. */
    method Get(now: int) returns (ms: seq<ChatMessage>, users: seq<string>)
      requires Valid()
      modifies this`typingUsers
      ensures Valid()
      ensures typingUsers == Fresh(old(typingUsers), now)
      ensures ms == messages && users == Users(typingUsers)
    {
      FreshKeepsUnique(typingUsers, now);
      typingUsers := Fresh(typingUsers, now);
      ms, users := messages, Users(typingUsers);
    }

    /** `POST`: a typing update, a new message, or a 400 for any other `type`. */
    method Post(content: Option<string>, sender: string, kind: Option<string>, now: nat) returns (r: Response<Posted>)
      requires Valid()
      modifies this
      ensures Valid()
      ensures kind == Some("typing") ==>
        && r == Ok(Acknowledged)
        && typingUsers == AfterTyping(old(typingUsers), sender, content, now)
        && messages == old(messages)
      ensures kind == Some("message") ==>
        var m := ChatMessage(Decimal(now), content, sender, now, [sender]);
        && r == Ok(Created(m))
        && messages == old(messages) + [m]
        && typingUsers == old(typingUsers)
      ensures kind != Some("typing") && kind != Some("message") ==>
        r == BadRequest("Invalid request") && messages == old(messages) && typingUsers == old(typingUsers)
    {
      if kind == Some("typing") {
        typingUsers := AfterTyping(typingUsers, sender, content, now);
        return Ok(Acknowledged);
      }
      if kind == Some("message") {
        var m := ChatMessage(Decimal(now), content, sender, now, [sender]);
        messages := messages + [m];
        return Ok(Created(m));
      }
      r := BadRequest("Invalid request");
    }
  }

  /** An indicator is reported for user `u` after expiry exactly when one was posted less than three seconds ago. */
  lemma {:induction false} ReportedUsers(ts: seq<Typing>, now: int, u: string)
    ensures u in Users(Fresh(ts, now)) <==> exists t :: t in ts && t.user == u && now - t.timestamp < TypingWindow
  {
    var f := Fresh(ts, now);
    var us := Users(f);
    if exists t :: t in ts && t.user == u && now - t.timestamp < TypingWindow {
      var t :| t in ts && t.user == u && now - t.timestamp < TypingWindow;
      assert t in f;
      var i :| 0 <= i < |f| && f[i] == t;
      assert us[i] == u;
    }
    if u in us {
      var i :| 0 <= i < |us| && us[i] == u;
      var t := f[i];
      assert t in f;
      assert t in ts && t.user == u && now - t.timestamp < TypingWindow;
    }
  }
}
