/**
 * app/api/consultations/route.ts: a user's consultations with display names
 * (`GET`), and a consultation opened directly with the first doctor (`POST`).
 */
module ConsultationsRoute {
  import opened Wrappers
  import opened Text
  import opened Identity
  import opened Store
  import opened Http
  import opened Queries
  import DoctorSelection

  /** `messages: { take: 1, orderBy: { createdAt: "desc" } }`: a newest message of the consultation, if it has any. */
  function LatestMessage(ms: seq<Message>, consultationId: string): (r: Option<Message>)
    ensures r.None? <==> forall m :: m in ms ==> m.consultationId != consultationId
    ensures r.Some? ==> r.value in ms && r.value.consultationId == consultationId
    ensures r.Some? ==> forall m :: m in ms && m.consultationId == consultationId ==> m.createdAt <= r.value.createdAt
  {
    if ms == [] then None
    else
      var rest := LatestMessage(ms[1..], consultationId);
      assert ms == [ms[0]] + ms[1..];
      if ms[0].consultationId != consultationId then rest
      else if rest.Some? && rest.value.createdAt > ms[0].createdAt then rest
      else Some(ms[0])
  }

  /** The patient's display name: "Unknown Patient" unless the lookup gives a name. */
  function PatientName(dir: Directory, c: Consultation): (name: string)
    ensures name != ""
    ensures c.patientId == "" || GetUserById(dir, c.patientId).None? ==> name == "Unknown Patient"
    ensures c.patientId != "" && GetUserById(dir, c.patientId).Some? ==>
      name == Or(GetUserById(dir, c.patientId).value.metadata.name, "Unknown Patient")
  {
    if c.patientId != "" then
      match GetUserById(dir, c.patientId)
      case Some(u) => Or(u.metadata.name, "Unknown Patient")
      case None => "Unknown Patient"
    else "Unknown Patient"
  }

  /** The doctor's name and specialization; no lookup at all while `doctorId` is null or empty. */
  function DoctorNames(dir: Directory, c: Consultation): (names: (string, string))
    ensures names.0 != ""
    ensures !Truthy(c.doctorId) ==> names == ("Unknown Doctor", "")
    ensures Truthy(c.doctorId) && GetUserById(dir, c.doctorId.value).None? ==> names == ("Unknown Doctor", "")
    ensures Truthy(c.doctorId) && GetUserById(dir, c.doctorId.value).Some? ==>
      var m := GetUserById(dir, c.doctorId.value).value.metadata;
      names == (Or(m.name, "Unknown Doctor"), Or(m.specialization, ""))
  {
    if Truthy(c.doctorId) then
      match GetUserById(dir, c.doctorId.value)
      case Some(u) => (Or(u.metadata.name, "Unknown Doctor"), Or(u.metadata.specialization, ""))
      case None => ("Unknown Doctor", "")
    else ("Unknown Doctor", "")
  }

  /** An unassigned consultation's doctor fields do not depend on the identity provider. */
  lemma UnassignedNeedsNoLookup(dir1: Directory, dir2: Directory, c: Consultation)
    requires c.doctorId.None?
    ensures DoctorNames(dir1, c) == DoctorNames(dir2, c) == ("Unknown Doctor", "")
  {
  }

  datatype Enriched = Enriched(
    consultation: Consultation,
    latestMessage: Option<Message>,
    patientName: string,
    doctorName: string,
    doctorSpecialization: string)

  function Enrich(dir: Directory, ms: seq<Message>, c: Consultation): Enriched {
    var names := DoctorNames(dir, c);
    Enriched(c, LatestMessage(ms, c.id), PatientName(dir, c), names.0, names.1)
  }

  /** `GET`: the user's consultations under the role filter, newest update first, each with names and its latest message. */
  function Get(cs: seq<Consultation>, ms: seq<Message>, dir: Directory, userId: Option<string>, userRole: Option<string>)
    : (r: Response<seq<Enriched>>)
    ensures r.BadRequest? <==> !Truthy(userId) || !Truthy(userRole)
    ensures r.BadRequest? ==> r.error == "Missing userId or userRole"
    ensures Truthy(userId) && Truthy(userRole) ==> r.Ok?
    ensures r.Ok? ==>
      var rows := Listing(cs, userId.value, userRole.value);
      && |r.body| == |rows|
      && forall i :: 0 <= i < |rows| ==> r.body[i] == Enrich(dir, ms, rows[i])
  {
    if !Truthy(userId) || !Truthy(userRole) then BadRequest("Missing userId or userRole")
    else
      var rows := Listing(cs, userId.value, userRole.value);
      Ok(seq(|rows|, i requires 0 <= i < |rows| => Enrich(dir, ms, rows[i])))
  }

  /** The listing is newest first and holds exactly the user's consultations. */
  lemma {:induction false} GetIsSortedAndComplete(cs: seq<Consultation>, ms: seq<Message>, dir: Directory,
                                                  userId: string, userRole: string, c: Consultation)
    requires userId != "" && userRole != ""
    ensures var body := Get(cs, ms, dir, Some(userId), Some(userRole)).body;
      && (forall i, j :: 0 <= i < j < |body| ==> body[i].consultation.updatedAt >= body[j].consultation.updatedAt)
      && ((exists i :: 0 <= i < |body| && body[i].consultation == c) <==> c in cs && BelongsTo(c, userId, userRole))
  {
    var rows := Listing(cs, userId, userRole);
    ListingMembers(cs, userId, userRole, c);
    GetFollowsListing(cs, ms, dir, userId, userRole);
    if c in rows {
      var i :| 0 <= i < |rows| && rows[i] == c;
      assert Get(cs, ms, dir, Some(userId), Some(userRole)).body[i].consultation == c;
    }
  }

  /** With both parameters present, the reply lists the rows of `Listing`, one entry each, in its order. */
  lemma GetFollowsListing(cs: seq<Consultation>, ms: seq<Message>, dir: Directory, userId: string, userRole: string)
    requires userId != "" && userRole != ""
    ensures var r := Get(cs, ms, dir, Some(userId), Some(userRole));
      var rows := Listing(cs, userId, userRole);
      && r.Ok? && |r.body| == |rows|
      && forall i :: 0 <= i < |rows| ==> r.body[i].consultation == rows[i]
  {
  }

  /** A patient sees exactly the consultations whose `patientId` is theirs; any other role is matched on `doctorId`. */
  lemma RoleFilter(c: Consultation, userId: string, userRole: string)
    ensures BelongsTo(c, userId, userRole) <==>
      if userRole == "patient" then c.patientId == userId else c.doctorId == Some(userId)
  {
  }

  datatype Created = Created(
    consultation: Consultation,
    patientName: string,
    doctorName: string,
    doctorSpecialization: string)

  /** `POST`: open an `ACTIVE` consultation with the first listed doctor. */
  method Post(db: Database, dir: Directory, patientId: Option<string>, title: Option<string>, newId: string, now: int)
    returns (r: Response<Created>)
    requires db.Valid()
    modifies db`consultations
    ensures db.Valid()
    ensures !Truthy(patientId) || !Truthy(title) ==> r == BadRequest("Missing required fields")
    ensures Truthy(patientId) && Truthy(title) && DoctorSelection.Doctors(dir.users) == [] ==>
      r == BadRequest("No doctors available")
    ensures !r.Ok? ==> db.consultations == old(db.consultations)
    ensures r.Ok? ==>
      && Truthy(patientId) && Truthy(title) && DoctorSelection.Doctors(dir.users) != []
      && var doctor := DoctorSelection.Doctors(dir.users)[0];
      var c := Consultation(newId, patientId.value, Some(doctor.id), title.value, Active,
                            db.defaults.consultationType, db.defaults.aiTriageStatus, None, None, now, now);
      && db.consultations == old(db.consultations) + [c]
      && r.body == Created(c, "Patient", Or(doctor.metadata.name, "Doctor"), Or(doctor.metadata.specialization, ""))
    ensures Truthy(patientId) && Truthy(title) && DoctorSelection.Doctors(dir.users) != [] ==>
      (r.Ok? <==> newId !in ConsultationIds(old(db.consultations)))
    ensures Truthy(patientId) && Truthy(title) && DoctorSelection.Doctors(dir.users) != []
            && newId in ConsultationIds(old(db.consultations)) ==>
      r == ServerError("Internal server error")
  {
    if !Truthy(patientId) || !Truthy(title) {
      return BadRequest("Missing required fields");
    }
    var doctors := DoctorSelection.Doctors(dir.users);
    if |doctors| == 0 {
      return BadRequest("No doctors available");
    }
    var doctor := doctors[0];
    var c := Consultation(newId, patientId.value, Some(doctor.id), title.value, Active,
                          db.defaults.consultationType, db.defaults.aiTriageStatus, None, None, now, now);
    var ok := db.InsertConsultation(c);
    if !ok {
      return ServerError("Internal server error");
    }
    r := Ok(Created(c, "Patient", Or(doctor.metadata.name, "Doctor"), Or(doctor.metadata.specialization, "")));
  }
}
