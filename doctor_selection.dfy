/**
 * lib/doctor-selection.ts: turning the AI's completion summary into selection
 * criteria, and choosing a doctor from the identity provider's user list.
 */
module DoctorSelection {
  import opened Wrappers
  import opened Text
  import opened Identity

  datatype Urgency = Low | Medium | High

  datatype Criteria = Criteria(symptoms: string, urgency: Urgency, specialization: Option<string>)

  const TriageMarker: string := "TRIAGE_COMPLETE:"
  const UrgentTriageMarker: string := "URGENT_TRIAGE_COMPLETE:"
  /** The urgency test looks for this prefix, which has no colon. */
  const UrgentPrefix: string := "URGENT_TRIAGE_COMPLETE"

  predicate AllSpace(s: string) {
    forall i :: 0 <= i < |s| ==> IsSpace(s[i])
  }

  /** `r` is what is left of `summary` once the marker `m` and the whitespace after it are cut off. */
  predicate MarkerCut(summary: string, m: string, r: string) {
    && |m| + |r| <= |summary|
    && summary[..|m|] == m
    && summary[|summary| - |r|..] == r
    && AllSpace(summary[|m|..|summary| - |r|])
    && (r == [] || !IsSpace(r[0]))
  }

  /** Cuts the marker `m` that `summary` starts with, and the whitespace after it. */
  function CutMarker(summary: string, m: string): (r: string)
    requires StartsWith(summary, m)
    ensures MarkerCut(summary, m, r)
  {
    var rest := summary[|m|..];
    var r := TrimStartSpace(rest);
    assert summary[|m|..|summary| - |r|] == rest[..|rest| - |r|];
    r
  }

  /**
   * `replace(/^(URGENT_)?TRIAGE_COMPLETE:\s*\/, "")`: a leading marker and the
   * whitespace after it are removed; any other text is left as it is.
   */
  function StripMarker(summary: string): (r: string)
    ensures !StartsWith(summary, TriageMarker) && !StartsWith(summary, UrgentTriageMarker) ==> r == summary
    ensures StartsWith(summary, UrgentTriageMarker) ==> MarkerCut(summary, UrgentTriageMarker, r)
    ensures !StartsWith(summary, UrgentTriageMarker) && StartsWith(summary, TriageMarker) ==> MarkerCut(summary, TriageMarker, r)
  {
    if StartsWith(summary, UrgentTriageMarker) then CutMarker(summary, UrgentTriageMarker)
    else if StartsWith(summary, TriageMarker) then CutMarker(summary, TriageMarker)
    else summary
  }

  predicate CardiacWords(lowered: string) {
    Contains(lowered, "heart") || Contains(lowered, "chest")
  }

  predicate SkinWords(lowered: string) {
    Contains(lowered, "skin") || Contains(lowered, "rash")
  }

  /** The criteria read off a triage summary: its urgency, its text after the marker, and the keyword flags. */
  function ExtractSymptoms(summary: string): (c: Criteria)
    ensures c.symptoms == StripMarker(summary)
    ensures c.urgency == High <==> StartsWith(summary, UrgentPrefix)
    ensures c.urgency != Low
    ensures c.specialization == Some("Cardiology") <==> CardiacWords(Lower(c.symptoms))
    ensures c.specialization == Some("Dermatology") <==>
      !CardiacWords(Lower(c.symptoms)) && SkinWords(Lower(c.symptoms))
    ensures c.specialization == None <==>
      !CardiacWords(Lower(c.symptoms)) && !SkinWords(Lower(c.symptoms))
  {
    var symptoms := StripMarker(summary);
    var urgency := if StartsWith(summary, UrgentPrefix) then High else Medium;
    var lowered := Lower(symptoms);
    var specialization :=
      if CardiacWords(lowered) then Some("Cardiology")
      else if SkinWords(lowered) then Some("Dermatology")
      else None;
    Criteria(symptoms, urgency, specialization)
  }

  /** A string that differs from `p` at position `i` does not start with `p`. */
  lemma DiffersAt(s: string, p: string, i: nat)
    requires i < |p| && (i >= |s| || s[i] != p[i])
    ensures !StartsWith(s, p)
  {
    if |p| <= |s| {
      assert s[..|p|][i] == s[i];
    }
  }

  /** The summary shape the AI is asked for: a marker, one space, then the symptom text. */
  lemma {:induction false} StripOneSpace(m: string, text: string)
    requires m == TriageMarker || m == UrgentTriageMarker
    requires text == [] || !IsSpace(text[0])
    ensures StartsWith(m + " " + text, m)
    ensures StripMarker(m + " " + text) == text
    ensures StartsWith(m + " " + text, UrgentPrefix) <==> m == UrgentTriageMarker
  {
    var s := m + " " + text;
    assert s[..|m|] == m;
    assert s[|m|..] == " " + text;
    assert (" " + text)[1..] == text;
    if m == TriageMarker {
      DiffersAt(s, UrgentTriageMarker, 0);
      DiffersAt(s, UrgentPrefix, 0);
    } else {
      assert s[..|UrgentPrefix|] == UrgentPrefix;
    }
  }

  /** Text without upper-case ASCII letters is its own lower-case form. */
  lemma LowerOfLowercase(s: string)
    requires forall i :: 0 <= i < |s| ==> !('A' <= s[i] <= 'Z')
    ensures Lower(s) == s
  {
  }

  /** "TRIAGE_COMPLETE: patient reports chest pain" is a medium-urgency cardiology case. */
  lemma ChestPainExample()
    ensures ExtractSymptoms("TRIAGE_COMPLETE: patient reports chest pain")
         == Criteria("patient reports chest pain", Medium, Some("Cardiology"))
  {
    var text := "patient reports chest pain";
    assert TriageMarker + " " + text == "TRIAGE_COMPLETE: patient reports chest pain";
    StripOneSpace(TriageMarker, text);
    ChestPainWords();
  }

  lemma ChestPainWords()
    ensures CardiacWords(Lower("patient reports chest pain"))
  {
    var text := "patient reports chest pain";
    LowerOfLowercase(text);
    assert OccursAt(text, "chest", 16);
  }

  /** "URGENT_TRIAGE_COMPLETE: severe rash" is a high-urgency dermatology case. */
  lemma SevereRashExample()
    ensures ExtractSymptoms("URGENT_TRIAGE_COMPLETE: severe rash")
         == Criteria("severe rash", High, Some("Dermatology"))
  {
    var text := "severe rash";
    assert UrgentTriageMarker + " " + text == "URGENT_TRIAGE_COMPLETE: severe rash";
    StripOneSpace(UrgentTriageMarker, text);
    SevereRashWords();
  }

  lemma SevereRashWords()
    ensures !CardiacWords(Lower("severe rash")) && SkinWords(Lower("severe rash"))
  {
    var text := "severe rash";
    LowerOfLowercase(text);
    MissingCharExcludes(text, "heart", 't');
    MissingCharExcludes(text, "chest", 'c');
    assert OccursAt(text, "rash", 7);
  }

  /** Keyword matching ignores case: upper-case "CHEST" still routes to cardiology. */
  lemma KeywordsIgnoreCase()
    ensures ExtractSymptoms("TRIAGE_COMPLETE: CHEST").specialization == Some("Cardiology")
  {
    assert "TRIAGE_COMPLETE: CHEST" == TriageMarker + " " + "CHEST";
    StripOneSpace(TriageMarker, "CHEST");
    assert Lower("CHEST") == "chest";
    assert OccursAt("chest", "chest", 0);
  }

  /**
   * The urgency test has no colon but the stripping regex does: a summary
   * "URGENT_TRIAGE_COMPLETE rash" is urgent, yet its text is kept whole.
   */
  lemma UrgentWithoutColon()
    ensures var c := ExtractSymptoms("URGENT_TRIAGE_COMPLETE rash");
      c.urgency == High && c.symptoms == "URGENT_TRIAGE_COMPLETE rash"
  {
    var s := "URGENT_TRIAGE_COMPLETE rash";
    assert s[..|UrgentPrefix|] == UrgentPrefix;
    DiffersAt(s, UrgentTriageMarker, 22);
    DiffersAt(s, TriageMarker, 0);
  }

  predicate IsDoctor(u: AuthUser) {
    u.metadata.role == Some("doctor")
  }

  /** The users whose metadata role is "doctor", in directory order, each doctor as often as listed. */
  function Doctors(users: seq<AuthUser>): (ds: seq<AuthUser>)
    ensures forall u :: u in ds ==> u in users && IsDoctor(u)
    ensures forall u :: u in users && IsDoctor(u) ==> u in ds
    ensures forall u :: multiset(ds)[u] == if IsDoctor(u) then multiset(users)[u] else 0
    ensures |ds| <= |users|
  {
    if users == [] then []
    else
      assert users == [users[0]] + users[1..];
      (if IsDoctor(users[0]) then [users[0]] else []) + Doctors(users[1..])
  }

  /** `users[k]` is a doctor and no user before it is. */
  predicate FirstDoctorAt(users: seq<AuthUser>, k: nat) {
    k < |users| && IsDoctor(users[k]) && forall j :: 0 <= j < k ==> !IsDoctor(users[j])
  }

  /** The head of the filtered list is the first user of the directory whose role is "doctor". */
  lemma {:induction false} FirstDoctorComesFirst(users: seq<AuthUser>) returns (k: nat)
    requires Doctors(users) != []
    ensures FirstDoctorAt(users, k) && users[k] == Doctors(users)[0]
  {
    if IsDoctor(users[0]) {
      k := 0;
    } else {
      var tail := users[1..];
      assert Doctors(users) == Doctors(tail);
      var t := FirstDoctorComesFirst(tail);
      FirstDoctorShift(users, t);
      k := t + 1;
    }
  }

  /** A first doctor at `t` in the tail is a first doctor at `t + 1` behind a non-doctor. */
  lemma FirstDoctorShift(users: seq<AuthUser>, t: nat)
    requires users != [] && !IsDoctor(users[0]) && FirstDoctorAt(users[1..], t)
    ensures FirstDoctorAt(users, t + 1) && users[t + 1] == users[1..][t]
  {
    forall j | 0 <= j < t + 1
      ensures !IsDoctor(users[j])
    {
      if j > 0 {
        assert users[j] == users[1..][j - 1];
      }
    }
  }

  /** `Math.floor(random * n)` for a draw `0 <= random < 1`, a position in a pool of `n`. */
  function PickIndex(random: real, n: nat): (k: nat)
    requires 0.0 <= random < 1.0 && n > 0
    ensures k < n
  {
    assert 0.0 <= random * n as real < n as real;
    (random * n as real).Floor
  }

  /**
   * `selectDoctor`: the criteria are accepted but not consulted; the random
   * draw `random` of `Math.random()` picks a doctor from the filtered list.
   */
  function SelectDoctor(criteria: Criteria, users: seq<AuthUser>, random: real): (r: Result<AuthUser, string>)
    requires 0.0 <= random < 1.0
    ensures r.Failure? <==> forall u :: u in users ==> !IsDoctor(u)
    ensures r.Failure? ==> r.error == "No doctors available"
    ensures r.Success? ==> r.value in users && IsDoctor(r.value)
  {
    var doctors := Doctors(users);
    if |doctors| == 0 then
      assert forall u :: u in users ==> !IsDoctor(u);
      Failure("No doctors available")
    else
      var k := PickIndex(random, |doctors|);
      assert doctors[k] in users && IsDoctor(doctors[k]);
      Success(doctors[k])
  }

  /** The selection does not depend on the criteria. */
  lemma SelectionIgnoresCriteria(c1: Criteria, c2: Criteria, users: seq<AuthUser>, random: real)
    requires 0.0 <= random < 1.0
    ensures SelectDoctor(c1, users, random) == SelectDoctor(c2, users, random)
  {
  }

  lemma PositiveProduct(x: real, y: real)
    requires x > 0.0 && y > 0.0
    ensures x * y > 0.0
  {
  }

  lemma NonNegativeProduct(x: real, y: real)
    requires x >= 0.0 && y >= 0.0
    ensures x * y >= 0.0
  {
  }

  /** The draw `k / n` lands on position `k` of a pool of `n`. */
  lemma DrawFor(k: nat, n: nat) returns (random: real)
    requires k < n
    ensures 0.0 <= random < 1.0 && PickIndex(random, n) == k
  {
    random := k as real / n as real;
    assert random * n as real == k as real;
    assert 0.0 <= random by {
      if random < 0.0 {
        PositiveProduct(-random, n as real);
      }
    }
    assert random < 1.0 by {
      if random >= 1.0 {
        NonNegativeProduct(random - 1.0, n as real);
      }
    }
  }

  /** Every doctor of the pool is chosen by some draw: no doctor is excluded. */
  lemma EveryDoctorSelectable(criteria: Criteria, users: seq<AuthUser>, d: AuthUser)
    requires d in users && IsDoctor(d)
    ensures exists random :: 0.0 <= random < 1.0 && SelectDoctor(criteria, users, random) == Success(d)
  {
    var doctors := Doctors(users);
    var n := |doctors|;
    var k :| 0 <= k < n && doctors[k] == d;
    var random := DrawFor(k, n);
    assert SelectDoctor(criteria, users, random) == Success(d);
  }
}
