/**
 * The identity provider (Supabase Auth, admin API) as seen by the server: a
 * snapshot of its users, plus the ids whose lookup fails at this moment.
 * `getUserById` reports a failure as a null user rather than throwing, so a
 * failed lookup and an unknown id look the same to every caller.
 */
module Identity {
  import opened Wrappers

  /** `user_metadata`: every field may be missing. */
  datatype Metadata = Metadata(
    language: Option<string>,
    role: Option<string>,
    name: Option<string>,
    specialization: Option<string>,
    onboardingCompleted: Option<bool>)

  datatype AuthUser = AuthUser(id: string, email: Option<string>, metadata: Metadata, createdAt: string)

  datatype Directory = Directory(users: seq<AuthUser>, failing: set<string>)

  /** The first listed user with the given id. */
  function FindById(users: seq<AuthUser>, id: string): (r: Option<AuthUser>)
    ensures r.Some? ==> r.value in users && r.value.id == id
    ensures r.None? <==> forall u :: u in users ==> u.id != id
  {
    if users == [] then None
    else if users[0].id == id then Some(users[0])
    else FindById(users[1..], id)
  }

  /** `supabase.auth.admin.getUserById(id)`: the user, or None when the id is unknown or the lookup fails. */
  function GetUserById(d: Directory, id: string): (r: Option<AuthUser>)
    ensures r.Some? ==> id !in d.failing && r.value in d.users && r.value.id == id
    ensures r.None? <==> id in d.failing || forall u :: u in d.users ==> u.id != id
  {
    if id in d.failing then None else FindById(d.users, id)
  }
}
