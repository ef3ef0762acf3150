/**
 * app/api/consultations/ai-triage/route.ts and the fallback of
 * `generateAIResponse` in lib/ai.ts: one turn of the AI triage conversation
 * and the detection of its completion marker.
 */
module AiTriageRoute {
  import opened Text
  import opened Http
  import opened Wrappers
  import DoctorSelection

  datatype Role = User | Assistant
  datatype Turn = Turn(role: Role, content: string)

  /**
   * The `messages` field of the request body: a body that is not a JSON
   * object (reading or destructuring it throws), an absent or falsy field,
   * some non-array value, or an array.
   */
  datatype MessagesField = Unparsable | Missing | NotAnArray | Turns(turns: seq<Turn>)

  /** The model as seen by the route: a completion, or `None` when the call throws. */
  type Model = seq<Turn> -> Option<string>

  const CompletionMarker: string := "TRIAGE_COMPLETE"
  /** The apology of `generateAIResponse`, written in short pieces so that its characters can be inspected one piece at a time. */
  const Fallback: string :=
    "Je suis désolé, j’ai " + "un problème de " + "connexion pour le " + "moment. Laissez-moi " + "essayer de vous " + "aider dans un instant."

  datatype TriageReply = TriageReply(response: string, isComplete: bool)

  /** `generateAIResponse`: the model's text, or the fixed apology when the call fails. */
  function GenerateResponse(model: Model, turns: seq<Turn>): (text: string)
    ensures model(turns).Some? ==> text == model(turns).value
    ensures model(turns).None? ==> text == Fallback
  {
    match model(turns)
    case Some(text) => text
    case None => Fallback
  }

  /**
   * `POST`: a 500 from the catch when the body does not parse, a 400 unless
   * `messages` is an array; otherwise the response and whether it holds the marker.
   */
  function Post(field: MessagesField, model: Model): (r: Response<TriageReply>)
    ensures r.ServerError? <==> field.Unparsable?
    ensures r.ServerError? ==> r.error == "Failed to process AI response"
    ensures r.BadRequest? <==> field.Missing? || field.NotAnArray?
    ensures r.BadRequest? ==> r.error == "Invalid messages format"
    ensures r.Ok? ==> r.body.response == GenerateResponse(model, field.turns)
    ensures r.Ok? ==> (r.body.isComplete <==> Contains(r.body.response, CompletionMarker))
    ensures !r.NotFound?
  {
    if field.Unparsable? then ServerError("Failed to process AI response")
    else if !field.Turns? then BadRequest("Invalid messages format")
    else
      var response := GenerateResponse(model, field.turns);
      Ok(TriageReply(response, Contains(response, CompletionMarker)))
  }

  /** An invalid body gets its 400 or 500 whatever the model would have said: the model is not consulted. */
  lemma InvalidNeedsNoModel(field: MessagesField, m1: Model, m2: Model)
    requires !field.Turns?
    ensures Post(field, m1) == Post(field, m2)
  {
  }

  /** The apology sent when the model fails never ends the triage. */
  lemma FallbackIsNotComplete(turns: seq<Turn>, model: Model)
    requires model(turns).None?
    ensures Post(Turns(turns), model) == Ok(TriageReply(Fallback, false))
  {
    assert 'O' !in Fallback;
    MissingCharExcludes(Fallback, CompletionMarker, 'O');
  }

  /** The urgent marker holds the plain one at position 7. */
  lemma UrgentHoldsPlain()
    ensures |DoctorSelection.UrgentTriageMarker| == 23 && |CompletionMarker| == 15
    ensures DoctorSelection.UrgentTriageMarker[7..22] == CompletionMarker
  {
  }

  /** A reply carrying the urgent marker is complete too, since that marker contains the plain one. */
  lemma {:induction false} UrgentMarkerIsComplete(turns: seq<Turn>, model: Model)
    requires model(turns).Some? && Contains(model(turns).value, DoctorSelection.UrgentTriageMarker)
    ensures Post(Turns(turns), model).body.isComplete
  {
    var s := model(turns).value;
    var u := DoctorSelection.UrgentTriageMarker;
    var i :| 0 <= i <= |s| - |u| && OccursAt(s, u, i);
    UrgentHoldsPlain();
    assert s[i..i + 23] == u;
    forall k | 0 <= k < 15
      ensures s[i + 7..i + 22][k] == CompletionMarker[k]
    {
      assert s[i + 7..i + 22][k] == s[i..i + 23][7 + k] == u[7 + k];
    }
    assert s[i + 7..i + 22] == CompletionMarker;
    assert OccursAt(s, CompletionMarker, i + 7);
  }

  /** The two completion markers the system prompt asks the model to end its reply with (lib/ai.ts:18-19). */
  const PromptMarker: string := "TRIAGE_" + "TERMINE : "
  const UrgentPromptMarker: string := "TRIAGE_" + "URGENCE_" + "TERMINE : "

  /** A prompt marker followed by a summary without `TRIAGE_COMPLETE` does not contain it, and no proper suffix of it starts that text. */
  lemma MarkedSummaryExcludes(m: string, summary: string)
    requires m == PromptMarker || m == UrgentPromptMarker
    requires !Contains(summary, CompletionMarker)
    ensures !Contains(m + summary, CompletionMarker)
    ensures forall j :: 0 < j < |CompletionMarker| ==> !StartsWith(m + summary, CompletionMarker[j..])
  {
    assert CompletionMarker[8] == 'O';
    assert 'O' !in m;
    ConcatExcludes(m, summary, CompletionMarker, 'O');
    assert (m + summary)[0] == 'T' && (m + summary)[1] == 'R';
    NoSuffixStartsTR(m + summary);
  }

  /** No proper suffix of `TRIAGE_COMPLETE` starts a text beginning with "TR". */
  lemma NoSuffixStartsTR(t: string)
    requires |t| >= 2 && t[0] == 'T' && t[1] == 'R'
    ensures forall j :: 0 < j < |CompletionMarker| ==> !StartsWith(t, CompletionMarker[j..])
  {
    forall j | 0 < j < |CompletionMarker|
      ensures !StartsWith(t, CompletionMarker[j..])
    {
      var q := CompletionMarker[j..];
      if j == 13 {
        assert q[1] == 'E';
        DoctorSelection.DiffersAt(t, q, 1);
      } else {
        assert q[0] != 'T';
        DoctorSelection.DiffersAt(t, q, 0);
      }
    }
  }

  /**
   * A reply that ends in either format the system prompt asks for, after any
   * preamble, is not detected as complete, unless the preamble or the summary
   * itself contains `TRIAGE_COMPLETE`.
   */
  lemma PromptMarkersAreNotRecognised(preamble: string, summary: string, turns: seq<Turn>, model: Model)
    requires !Contains(preamble, CompletionMarker) && !Contains(summary, CompletionMarker)
    requires model(turns) == Some(preamble + PromptMarker + summary)
          || model(turns) == Some(preamble + UrgentPromptMarker + summary)
    ensures !Post(Turns(turns), model).body.isComplete
  {
    var m := if model(turns) == Some(preamble + PromptMarker + summary) then PromptMarker else UrgentPromptMarker;
    MarkedSummaryExcludes(m, summary);
    JoinExcludes(preamble, m + summary, CompletionMarker);
    assert preamble + (m + summary) == model(turns).value;
  }

  /**
   * A reply that starts with a prompt marker, passed on as the triage summary,
   * keeps its marker in the symptom text and gets medium urgency, whatever
   * follows the marker.
   */
  lemma PromptMarkersAreNotStripped(summary: string)
    ensures var c := DoctorSelection.ExtractSymptoms(PromptMarker + summary);
      c.symptoms == PromptMarker + summary && c.urgency == DoctorSelection.Medium
    ensures var c := DoctorSelection.ExtractSymptoms(UrgentPromptMarker + summary);
      c.symptoms == UrgentPromptMarker + summary && c.urgency == DoctorSelection.Medium
  {
    var s1, s2 := PromptMarker + summary, UrgentPromptMarker + summary;
    assert s1[7] == 'T' && s2[0] == 'T';
    DoctorSelection.DiffersAt(s1, DoctorSelection.TriageMarker, 7);
    DoctorSelection.DiffersAt(s1, DoctorSelection.UrgentTriageMarker, 0);
    DoctorSelection.DiffersAt(s1, DoctorSelection.UrgentPrefix, 0);
    DoctorSelection.DiffersAt(s2, DoctorSelection.TriageMarker, 7);
    DoctorSelection.DiffersAt(s2, DoctorSelection.UrgentTriageMarker, 0);
    DoctorSelection.DiffersAt(s2, DoctorSelection.UrgentPrefix, 0);
  }
}
