/**
 * The Prisma tables the core reads and writes, held in memory: consultations,
 * messages, read receipts and the two translation caches. Rows are created by
 * the database with an id (given by the caller here) and the clock value
 * `now`; a create whose id is taken, or a message whose consultation does not
 * exist, is refused as the database's constraints refuse it.
 */
module Store {
  import opened Wrappers

  datatype ConsultationStatus = Active | Completed | Cancelled
  datatype ConsultationType = AiTriage | Human
  datatype TriageStatus = TriageInProgress | TriageCompleted
  datatype MessageType = SystemMessage | AiTriageMessage | DoctorIntro | PrescriptionMessage | Normal

  datatype Consultation = Consultation(
    id: string,
    patientId: string,
    doctorId: Option<string>,
    title: string,
    status: ConsultationStatus,
    consultationType: ConsultationType,
    aiTriageStatus: Option<TriageStatus>,
    triageSummary: Option<string>,
    urgency: Option<string>,
    createdAt: int,
    updatedAt: int)

  datatype Message = Message(
    id: string,
    consultationId: string,
    senderId: string,
    content: string,
    messageType: MessageType,
    createdAt: int)

  /** A `messageTranslation` row, unique on (messageId, targetLanguage). */
  datatype MessageTranslation = MessageTranslation(
    messageId: string,
    targetLanguage: string,
    originalText: string,
    translatedText: string,
    sourceLanguage: string)

  type MessageKey = (string, string)
  /** (text, sourceLanguage, targetLanguage), the unique key of `translationCache`. */
  type TextKey = (string, string, string)

  /** The column defaults of the schema for a consultation created without them. */
  datatype SchemaDefaults = SchemaDefaults(consultationType: ConsultationType, aiTriageStatus: Option<TriageStatus>)

  function ConsultationIds(cs: seq<Consultation>): set<string> {
    set c | c in cs :: c.id
  }

  function MessageIds(ms: seq<Message>): set<string> {
    set m | m in ms :: m.id
  }

  predicate UniqueConsultationIds(cs: seq<Consultation>) {
    forall i, j :: 0 <= i < j < |cs| ==> cs[i].id != cs[j].id
  }

  predicate UniqueMessageIds(ms: seq<Message>) {
    forall i, j :: 0 <= i < j < |ms| ==> ms[i].id != ms[j].id
  }

  /** Every cached message translation sits under its own (messageId, targetLanguage). */
  predicate WellKeyed(cache: map<MessageKey, MessageTranslation>) {
    forall k :: k in cache ==> cache[k].messageId == k.0 && cache[k].targetLanguage == k.1
  }

  /** `findUnique({ where: { id } })` on consultations: the row's position. */
  function FindConsultation(cs: seq<Consultation>, id: string): (r: Option<nat>)
    ensures r.Some? ==> r.value < |cs| && cs[r.value].id == id
    ensures r.None? <==> id !in ConsultationIds(cs)
  {
    if cs == [] then None
    else if cs[0].id == id then Some(0)
    else
      var r := FindConsultation(cs[1..], id);
      assert ConsultationIds(cs) == {cs[0].id} + ConsultationIds(cs[1..]);
      if r.None? then None else Some(r.value + 1)
  }

  class Database {
    var consultations: seq<Consultation>
    var messages: seq<Message>
    var readReceipts: set<(string, string)>
    var messageTranslations: map<MessageKey, MessageTranslation>
    var translationCache: map<TextKey, string>
    const defaults: SchemaDefaults

    /** The constraints of the schema: unique ids, messages tied to a consultation, caches keyed by their own fields. */
    ghost predicate Valid()
      reads this
    {
      && UniqueConsultationIds(consultations)
      && UniqueMessageIds(messages)
      && (forall m :: m in messages ==> m.consultationId in ConsultationIds(consultations))
      && WellKeyed(messageTranslations)
    }

    constructor (defaults: SchemaDefaults)
      ensures Valid() && this.defaults == defaults
      ensures consultations == [] && messages == [] && readReceipts == {}
      ensures messageTranslations == map[] && translationCache == map[]
    {
      this.defaults := defaults;
      consultations, messages, readReceipts := [], [], {};
      messageTranslations, translationCache := map[], map[];
    }

    /** `consultation.create`: refused when the id is already taken. */
    method InsertConsultation(c: Consultation) returns (ok: bool)
      requires Valid()
      modifies this`consultations
      ensures Valid()
      ensures ok <==> c.id !in ConsultationIds(old(consultations))
      ensures consultations == if ok then old(consultations) + [c] else old(consultations)
    {
      ok := c.id !in ConsultationIds(consultations);
      if ok {
        assert forall i :: 0 <= i < |consultations| ==> consultations[i] in consultations;
        consultations := consultations + [c];
        assert ConsultationIds(consultations) == ConsultationIds(old(consultations)) + {c.id};
      }
    }

    /** `message.create`: refused when the id is taken or the consultation does not exist. */
    method InsertMessage(m: Message) returns (ok: bool)
      requires Valid()
      modifies this`messages
      ensures Valid()
      ensures ok <==> m.id !in MessageIds(old(messages)) && m.consultationId in ConsultationIds(consultations)
      ensures messages == if ok then old(messages) + [m] else old(messages)
    {
      ok := m.id !in MessageIds(messages) && m.consultationId in ConsultationIds(consultations);
      if ok {
        assert forall i :: 0 <= i < |messages| ==> messages[i] in messages;
        messages := messages + [m];
      }
    }

    /** `consultation.update({ where: { id } })` on the row at position `i`, keeping its id. */
    method UpdateConsultation(i: nat, c: Consultation)
      requires Valid() && i < |consultations| && c.id == consultations[i].id
      modifies this`consultations
      ensures Valid()
      ensures consultations == old(consultations)[i := c]
      ensures ConsultationIds(consultations) == ConsultationIds(old(consultations))
    {
      consultations := consultations[i := c];
      forall id | id in ConsultationIds(old(consultations))
        ensures id in ConsultationIds(consultations)
      {
        var j :| 0 <= j < |old(consultations)| && old(consultations)[j].id == id;
        assert consultations[j].id == id;
      }
    }
  }
}
