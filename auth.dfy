/** The display defaults of lib/auth.ts. */
module Auth {
  import opened Wrappers
  import opened Text
  import opened Identity

  datatype DisplayInfo = DisplayInfo(
    id: string,
    email: string,
    name: string,
    role: string,
    language: string,
    specialization: Option<string>,
    onboardingCompleted: bool,
    createdAt: string)

  /** `getUserDisplayInfo`: each missing (or falsy) metadata field gets its default. */
  function GetUserDisplayInfo(user: AuthUser): (r: DisplayInfo)
    ensures r.id == user.id && r.createdAt == user.createdAt
    ensures r.specialization == user.metadata.specialization
    ensures r.email == (if Truthy(user.email) then user.email.value else "")
    ensures r.name == (if Truthy(user.metadata.name) then user.metadata.name.value else "")
    ensures r.role == (if Truthy(user.metadata.role) then user.metadata.role.value else "patient")
    ensures r.language == (if Truthy(user.metadata.language) then user.metadata.language.value else "en")
    ensures r.onboardingCompleted <==> user.metadata.onboardingCompleted == Some(true)
  {
    var m := user.metadata;
    DisplayInfo(
      user.id,
      Or(user.email, ""),
      Or(m.name, ""),
      Or(m.role, "patient"),
      Or(m.language, "en"),
      m.specialization,
      m.onboardingCompleted.GetOr(false),
      user.createdAt)
  }

  /** A user with no metadata at all is shown as an English-speaking patient without a name. */
  lemma EmptyMetadataDefaults(id: string, createdAt: string)
    ensures var info := GetUserDisplayInfo(AuthUser(id, None, Metadata(None, None, None, None, None), createdAt));
      info == DisplayInfo(id, "", "", "patient", "en", None, false, createdAt)
  {
  }
}
