/**
 * app/api/consultations/complete-triage/route.ts: hand an AI-triaged
 * consultation over to a doctor, post the triage summary and the doctor's
 * introduction, and translate the introduction into the patient's language.
 */
module CompleteTriage {
  import opened Wrappers
  import opened Text
  import opened Identity
  import opened Store
  import opened Http
  import opened Lingo
  import opened DoctorSelection
  import opened Translation
  import Queries

  /** The urgency's string value in `DoctorSelectionCriteria`. */
  function UrgencyText(u: Urgency): string {
    match u
    case Low => "low"
    case Medium => "medium"
    case High => "high"
  }

  /** The row after `consultation.update`: doctor assigned, type `HUMAN`, triage `COMPLETED`. */
  function Assigned(c: Consultation, aiSummary: string, criteria: Criteria, doctorId: string, now: int): Consultation {
    c.(doctorId := Some(doctorId),
       title := "Consultation - " + Prefix(criteria.symptoms, 50) + "...",
       consultationType := Human,
       aiTriageStatus := Some(TriageCompleted),
       triageSummary := Some(aiSummary),
       urgency := Some(Upper(UrgencyText(criteria.urgency))),
       updatedAt := now)
  }

  function SummaryMessage(id: string, c: Consultation, aiSummary: string, now: int): Message {
    Message(id, c.id, c.patientId, "AI Triage Summary: " + aiSummary, SystemMessage, now)
  }

  const IntroOpening: string := "Hello! I'm Dr. "
  const IntroClosing: string := ". I've reviewed your symptoms and I'm here to help. How are you feeling right now?"

  function IntroText(doctorName: string): string {
    IntroOpening + doctorName + IntroClosing
  }

  function IntroMessage(id: string, consultationId: string, doctorId: string, doctorName: string, now: int): Message {
    Message(id, consultationId, doctorId, IntroText(doctorName), DoctorIntro, now)
  }

  /** The doctor's name and specialization, "Doctor" and "" when the lookup gives none. */
  function DoctorNames(dir: Directory, doctorId: string): (names: (string, string))
    ensures names.0 != ""
    ensures GetUserById(dir, doctorId).None? ==> names == ("Doctor", "")
    ensures GetUserById(dir, doctorId).Some? ==>
      var m := GetUserById(dir, doctorId).value.metadata;
      && names.0 == (if Truthy(m.name) then m.name.value else "Doctor")
      && names.1 == (if Truthy(m.specialization) then m.specialization.value else "")
  {
    match GetUserById(dir, doctorId)
    case Some(u) => (Or(u.metadata.name, "Doctor"), Or(u.metadata.specialization, ""))
    case None => ("Doctor", "")
  }

  /** The patient's name, "Patient" when the lookup gives none. */
  function PatientName(dir: Directory, patientId: string): (name: string)
    ensures name != ""
    ensures GetUserById(dir, patientId).None? ==> name == "Patient"
    ensures GetUserById(dir, patientId).Some? ==>
      var m := GetUserById(dir, patientId).value.metadata;
      name == if Truthy(m.name) then m.name.value else "Patient"
  {
    match GetUserById(dir, patientId)
    case Some(u) => Or(u.metadata.name, "Patient")
    case None => "Patient"
  }

  datatype DoctorInfo = DoctorInfo(id: string, name: string, specialization: string, language: string)
  datatype IntroView = IntroView(message: Message, content: string, originalContent: string,
                                 senderName: string, senderLanguage: string)
  datatype Outcome = Outcome(consultation: Consultation, patientName: string, doctorName: string,
                             doctorSpecialization: string, doctor: DoctorInfo, introMessage: IntroView)

  /** The options `translateMessage` is called with for the introduction. */
  function IntroOptions(introId: string, doctorName: string, doctorLanguage: string, patientLanguage: string): TranslationOptions {
    TranslationOptions(introId, IntroText(doctorName), doctorLanguage, patientLanguage)
  }

  /** The introduction: stored in the doctor's words, then translated for the patient when their languages differ. */
  method Introduce(db: Database, provider: Provider, consultationId: string, doctorId: string, doctorName: string,
                   introId: string, doctorLanguage: string, patientLanguage: string, now: int)
    returns (view: Option<IntroView>)
    requires db.Valid()
    modifies db`messages, db`messageTranslations, provider
    ensures db.Valid()
    ensures var intro := IntroMessage(introId, consultationId, doctorId, doctorName, now);
      var o := IntroOptions(introId, doctorName, doctorLanguage, patientLanguage);
      var s := TranslateMessageStep(old(db.messageTranslations), o, NextReply(old(provider.script)));
      && (view.Some? <==> introId !in MessageIds(old(db.messages)) && consultationId in ConsultationIds(db.consultations))
      && (view.None? ==> db.messages == old(db.messages) && db.messageTranslations == old(db.messageTranslations) && unchanged(provider))
      && (view.Some? ==>
            && db.messages == old(db.messages) + [intro]
            && db.messageTranslations == s.cache
            && provider.calls == old(provider.calls) + (if s.called then [RequestOf(o)] else [])
            && provider.script == (if s.called then AfterReply(old(provider.script)) else old(provider.script))
            && view.value == IntroView(intro, s.result, IntroText(doctorName), doctorName, doctorLanguage))
  {
    var intro := IntroMessage(introId, consultationId, doctorId, doctorName, now);
    var ok := db.InsertMessage(intro);
    if !ok {
      return None;
    }
    var translated := IntroText(doctorName);
    var o := IntroOptions(introId, doctorName, doctorLanguage, patientLanguage);
    if doctorLanguage != patientLanguage {
      translated := TranslateMessage(db, provider, o);
    } else {
      SameLanguageShortCircuits(db.messageTranslations, o, NextReply(provider.script));
    }
    view := Some(IntroView(intro, translated, IntroText(doctorName), doctorName, doctorLanguage));
  }

  /** `consultation.update` on the row at position `i`, then the summary message from its patient. */
  method AssignAndSummarize(db: Database, i: nat, aiSummary: string, criteria: Criteria, doctorId: string,
                            summaryId: string, now: int)
    returns (ok: bool)
    requires db.Valid() && i < |db.consultations|
    modifies db`consultations, db`messages
    ensures db.Valid()
    ensures var c := old(db.consultations)[i];
      && db.consultations == old(db.consultations)[i := Assigned(c, aiSummary, criteria, doctorId, now)]
      && c.id in ConsultationIds(db.consultations)
      && (ok <==> summaryId !in MessageIds(old(db.messages)))
      && db.messages == (if ok then old(db.messages) + [SummaryMessage(summaryId, c, aiSummary, now)] else old(db.messages))
      && (ok ==> MessageIds(db.messages) == MessageIds(old(db.messages)) + {summaryId})
  {
    var c := db.consultations[i];
    assert c.id in ConsultationIds(db.consultations) by {
      assert c in db.consultations;
    }
    db.UpdateConsultation(i, Assigned(c, aiSummary, criteria, doctorId, now));
    var summary := SummaryMessage(summaryId, c, aiSummary, now);
    ok := db.InsertMessage(summary);
    if ok {
      assert MessageIds(db.messages) == MessageIds(old(db.messages)) + {summaryId} by {
        assert db.messages[|db.messages| - 1] == summary;
      }
    }
  }

  /** The writes after a doctor was selected for the row at position `i`; a failing message create is a 500. */
  method HandOver(db: Database, dir: Directory, provider: Provider, i: nat, aiSummary: string,
                  criteria: Criteria, doctor: AuthUser, summaryId: string, introId: string, now: int)
    returns (r: Response<Outcome>)
    requires db.Valid() && i < |db.consultations|
    modifies db`consultations, db`messages, db`messageTranslations, provider
    ensures db.Valid()
    ensures var c := old(db.consultations)[i];
      var updated := Assigned(c, aiSummary, criteria, doctor.id, now);
      var names := DoctorNames(dir, doctor.id);
      var doctorLanguage := LanguageOf(dir, doctor.id);
      var o := IntroOptions(introId, names.0, doctorLanguage, LanguageOf(dir, c.patientId));
      var s := TranslateMessageStep(old(db.messageTranslations), o, NextReply(old(provider.script)));
      var summary := SummaryMessage(summaryId, c, aiSummary, now);
      var intro := IntroMessage(introId, c.id, doctor.id, names.0, now);
      && db.consultations == old(db.consultations)[i := updated]
      && (r.Ok? <==> summaryId !in MessageIds(old(db.messages)) && introId != summaryId && introId !in MessageIds(old(db.messages)))
      && (summaryId in MessageIds(old(db.messages)) ==>
            r == ServerError("Internal server error") && db.messages == old(db.messages))
      && (summaryId !in MessageIds(old(db.messages)) && (introId == summaryId || introId in MessageIds(old(db.messages))) ==>
            r == ServerError("Internal server error") && db.messages == old(db.messages) + [summary])
      && (!r.Ok? ==> db.messageTranslations == old(db.messageTranslations) && unchanged(provider))
      && (r.Ok? ==>
            && db.messages == old(db.messages) + [summary, intro]
            && db.messageTranslations == s.cache
            && provider.calls == old(provider.calls) + (if s.called then [RequestOf(o)] else [])
            && provider.script == (if s.called then AfterReply(old(provider.script)) else old(provider.script))
            && r.body == Outcome(updated, PatientName(dir, c.patientId), names.0, names.1,
                                 DoctorInfo(doctor.id, names.0, names.1, doctorLanguage),
                                 IntroView(intro, s.result, IntroText(names.0), names.0, doctorLanguage)))
  {
    var c := db.consultations[i];
    var patientLanguage := LanguageOf(dir, c.patientId);
    var doctorLanguage := LanguageOf(dir, doctor.id);
    var updated := Assigned(c, aiSummary, criteria, doctor.id, now);
    var ok := AssignAndSummarize(db, i, aiSummary, criteria, doctor.id, summaryId, now);
    var names := DoctorNames(dir, doctor.id);
    var view := None;
    if ok {
      view := Introduce(db, provider, c.id, doctor.id, names.0, introId, doctorLanguage, patientLanguage, now);
    }
    r := if view.None? then ServerError("Internal server error")
         else Ok(Outcome(updated, PatientName(dir, c.patientId), names.0, names.1,
                         DoctorInfo(doctor.id, names.0, names.1, doctorLanguage), view.value));
  }

  /**
   * `POST`. The steps are not one transaction: once the update has run, a
   * failing message create is a 500 that leaves the earlier writes in place.
   * The triage state of the row is not checked.
   */
  method Post(db: Database, dir: Directory, provider: Provider,
              consultationId: Option<string>, aiSummary: Option<string>, random: real,
              summaryId: string, introId: string, now: int)
    returns (r: Response<Outcome>)
    requires db.Valid() && 0.0 <= random < 1.0
    modifies db`consultations, db`messages, db`messageTranslations, provider
    ensures db.Valid()
    ensures !Truthy(consultationId) || !Truthy(aiSummary) ==>
      r == BadRequest("Missing required fields") && unchanged(db, provider)
    ensures Truthy(consultationId) && Truthy(aiSummary) && FindConsultation(old(db.consultations), consultationId.value).None? ==>
      r == NotFound("Consultation not found") && unchanged(db, provider)
    ensures Truthy(consultationId) && Truthy(aiSummary) && FindConsultation(old(db.consultations), consultationId.value).Some?
            && SelectDoctor(ExtractSymptoms(aiSummary.value), dir.users, random).Failure? ==>
      r == ServerError("Internal server error") && unchanged(db, provider)
    ensures Truthy(consultationId) && Truthy(aiSummary) && FindConsultation(old(db.consultations), consultationId.value).Some?
            && SelectDoctor(ExtractSymptoms(aiSummary.value), dir.users, random).Success? ==>
      var i := FindConsultation(old(db.consultations), consultationId.value).value;
      var criteria := ExtractSymptoms(aiSummary.value);
      var doctor := SelectDoctor(criteria, dir.users, random).value;
      var c := old(db.consultations)[i];
      var updated := Assigned(c, aiSummary.value, criteria, doctor.id, now);
      var names := DoctorNames(dir, doctor.id);
      var doctorLanguage := LanguageOf(dir, doctor.id);
      var o := IntroOptions(introId, names.0, doctorLanguage, LanguageOf(dir, c.patientId));
      var s := TranslateMessageStep(old(db.messageTranslations), o, NextReply(old(provider.script)));
      var summary := SummaryMessage(summaryId, c, aiSummary.value, now);
      var intro := IntroMessage(introId, c.id, doctor.id, names.0, now);
      && db.consultations == old(db.consultations)[i := updated]
      && (r.Ok? <==> summaryId !in MessageIds(old(db.messages)) && introId != summaryId && introId !in MessageIds(old(db.messages)))
      && (summaryId in MessageIds(old(db.messages)) ==>
            r == ServerError("Internal server error") && db.messages == old(db.messages))
      && (summaryId !in MessageIds(old(db.messages)) && (introId == summaryId || introId in MessageIds(old(db.messages))) ==>
            r == ServerError("Internal server error") && db.messages == old(db.messages) + [summary])
      && (!r.Ok? ==> db.messageTranslations == old(db.messageTranslations) && unchanged(provider))
      && (r.Ok? ==>
            && db.messages == old(db.messages) + [summary, intro]
            && db.messageTranslations == s.cache
            && provider.calls == old(provider.calls) + (if s.called then [RequestOf(o)] else [])
            && provider.script == (if s.called then AfterReply(old(provider.script)) else old(provider.script))
            && r.body == Outcome(updated, PatientName(dir, c.patientId), names.0, names.1,
                                 DoctorInfo(doctor.id, names.0, names.1, doctorLanguage),
                                 IntroView(intro, s.result, IntroText(names.0), names.0, doctorLanguage)))
  {
    if !Truthy(consultationId) || !Truthy(aiSummary) {
      return BadRequest("Missing required fields");
    }
    var found := FindConsultation(db.consultations, consultationId.value);
    if found.None? {
      return NotFound("Consultation not found");
    }
    var criteria := ExtractSymptoms(aiSummary.value);
    var selected := SelectDoctor(criteria, dir.users, random);
    if selected.Failure? {
      return ServerError("Internal server error");
    }
    r := HandOver(db, dir, provider, found.value, aiSummary.value, criteria, selected.value, summaryId, introId, now);
  }

  /** After the hand-over the assigned doctor, and still the patient, find the consultation in their listing. */
  lemma AssignedIsListedForBoth(c: Consultation, aiSummary: string, criteria: Criteria, doctorId: string, now: int)
    ensures Queries.BelongsTo(Assigned(c, aiSummary, criteria, doctorId, now), doctorId, "doctor")
    ensures Queries.BelongsTo(Assigned(c, aiSummary, criteria, doctorId, now), c.patientId, "patient")
  {
  }

  /** The stored urgency is "HIGH" exactly for a summary that starts with the urgent marker, and "MEDIUM" otherwise. */
  lemma StoredUrgency(c: Consultation, aiSummary: string, doctorId: string, now: int)
    ensures var u := Assigned(c, aiSummary, ExtractSymptoms(aiSummary), doctorId, now).urgency;
      && (StartsWith(aiSummary, UrgentPrefix) ==> u == Some("HIGH"))
      && (!StartsWith(aiSummary, UrgentPrefix) ==> u == Some("MEDIUM"))
  {
    assert Upper("high") == "HIGH" by {
      assert forall k :: 0 <= k < 4 ==> Upper("high")[k] == "HIGH"[k];
    }
    assert Upper("medium") == "MEDIUM" by {
      assert forall k :: 0 <= k < 6 ==> Upper("medium")[k] == "MEDIUM"[k];
    }
  }

  /** The title is the prefix, at most 50 characters of the symptoms, and the suffix. */
  lemma {:induction false} TitleShape(c: Consultation, aiSummary: string, criteria: Criteria, doctorId: string, now: int)
    ensures var t := Assigned(c, aiSummary, criteria, doctorId, now).title;
      && StartsWith(t, "Consultation - ")
      && |t| <= 15 + 50 + 3
      && t[|t| - 3..] == "..."
      && StartsWith(criteria.symptoms, t[15..|t| - 3])
  {
    var p := Prefix(criteria.symptoms, 50);
    var t := "Consultation - " + p + "...";
    assert t[..15] == "Consultation - ";
    assert t[15..|t| - 3] == p;
  }
}
