/** app/api/consultations/start-ai-triage/route.ts: open a consultation held by the AI assistant. */
module StartAiTriage {
  import opened Wrappers
  import opened Text
  import opened Store
  import opened Http
  import Queries

  const Title: string := "AI Health Assessment"
  const Greeting: string :=
    "Hello! I'm your AI health assistant. I'm here to understand your symptoms and connect you with the right doctor. What brings you here today?"

  /**
   * The consultation row the route creates: titled "AI Health Assessment",
   * no doctor, summary or urgency yet, `AI_TRIAGE`, triage `IN_PROGRESS`,
   * created and updated at `now`.
   */
  function Opened(id: string, patientId: string, now: int): (c: Consultation)
    ensures c.id == id && c.patientId == patientId && c.doctorId.None?
    ensures c.title == Title
    ensures c.status == Active && c.consultationType == AiTriage && c.aiTriageStatus == Some(TriageInProgress)
    ensures c.triageSummary.None? && c.urgency.None?
    ensures c.createdAt == now && c.updatedAt == now
  {
    Consultation(id, patientId, None, Title, Active, AiTriage, Some(TriageInProgress), None, None, now, now)
  }

  /** The assistant's fixed opening line, stored at `now` with the patient as sender. */
  function GreetingMessage(id: string, consultationId: string, patientId: string, now: int): (m: Message)
    ensures m.id == id && m.consultationId == consultationId && m.senderId == patientId
    ensures m.content == Greeting && m.messageType == AiTriageMessage && m.createdAt == now
  {
    Message(id, consultationId, patientId, Greeting, AiTriageMessage, now)
  }

  /** `POST`: create the consultation, then its greeting; either create failing is a 500. */
  method Post(db: Database, patientId: Option<string>, consultationId: string, messageId: string, now: int)
    returns (r: Response<Consultation>)
    requires db.Valid()
    modifies db`consultations, db`messages
    ensures db.Valid()
    ensures !Truthy(patientId) ==> r == BadRequest("Missing patientId") && unchanged(db)
    ensures Truthy(patientId) && consultationId in ConsultationIds(old(db.consultations)) ==>
      r == ServerError("Internal server error") && unchanged(db)
    ensures Truthy(patientId) && consultationId !in ConsultationIds(old(db.consultations)) ==>
      var c := Opened(consultationId, patientId.value, now);
      && db.consultations == old(db.consultations) + [c]
      && (messageId !in MessageIds(old(db.messages)) ==>
            r == Ok(c) && db.messages == old(db.messages) + [GreetingMessage(messageId, consultationId, patientId.value, now)])
      && (messageId in MessageIds(old(db.messages)) ==>
            r == ServerError("Internal server error") && db.messages == old(db.messages))
  {
    if !Truthy(patientId) {
      return BadRequest("Missing patientId");
    }
    var c := Opened(consultationId, patientId.value, now);
    var ok := db.InsertConsultation(c);
    if !ok {
      return ServerError("Internal server error");
    }
    assert consultationId in ConsultationIds(db.consultations) by {
      assert db.consultations[|db.consultations| - 1] == c;
    }
    ok := db.InsertMessage(GreetingMessage(messageId, consultationId, patientId.value, now));
    if !ok {
      return ServerError("Internal server error");
    }
    r := Ok(c);
  }

  /** The new consultation is listed for its patient and for no doctor until triage completes. */
  lemma OpenedIsPatientsOnly(id: string, patientId: string, now: int, doctorId: string)
    ensures Queries.BelongsTo(Opened(id, patientId, now), patientId, "patient")
    ensures !Queries.BelongsTo(Opened(id, patientId, now), doctorId, "doctor")
  {
  }
}
