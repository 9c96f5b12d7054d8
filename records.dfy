/** The patient record and the queries and updates the handlers perform on the
    global record list: first match by timestamp, filter by owner, delete all
    matching, and the in-place field updates applied to the first match. */
module Records {
  import opened Optional

  /** One `{message, time}` entry of a reply log. */
  datatype Reply = Reply(message: Option<string>, time: string)

  datatype Status = Pending | Replied

  /** The `symptoms` dictionary of a record. The first five come straight
      from `form.get` and may be absent; the last six default to "". */
  datatype Symptoms = Symptoms(
    painLevel: Option<string>,
    bleeding: Option<string>,
    swelling: Option<string>,
    duration: Option<string>,
    history: Option<string>,
    habits: seq<string>,
    tobaccoYears: string,
    alcoholYears: string,
    smokingYears: string,
    trismusTest: string,
    mouthPain: string,
    extraDetails: string)

  /** `predict` stores a drawn number, `submit_patient_data` the string "95". */
  datatype Confidence = Drawn(percent: real) | Stated(text: string)

  /** A record dictionary. Keys a record may lack (`patient_replies`,
      `follow_up`, `audio_path`, `pdf_path`) are `Option`s; so is
      `doctor_replies`, which the reply handlers also treat as optional. */
  datatype PatientRecord = PatientRecord(
    timestamp: string,
    imagePath: string,
    symptoms: Symptoms,
    doctorReplies: Option<seq<Reply>>,
    patientReplies: Option<seq<Reply>>,
    status: Status,
    voiceReplyPath: Option<string>,
    doctor: string,
    prediction: string,
    confidence: Confidence,
    username: Option<string>,
    followUp: Option<bool>,
    audioPath: Option<string>,
    pdfPath: Option<string>)

  /** A reply log, an absent one read as empty. */
  function Log(l: Option<seq<Reply>>): seq<Reply> {
    ValueOr(l, [])
  }

  /** `record["timestamp"] == timestamp`, where the requested timestamp is a
      form value that may be missing (and then matches nothing). */
  predicate Matches(r: PatientRecord, key: Option<string>) {
    key == Some(r.timestamp)
  }

  /** The position the `for … if … break` loops stop at: the earliest record
      with the timestamp, or None when there is none. */
  function FirstMatch(s: seq<PatientRecord>, key: Option<string>): (r: Option<nat>)
    ensures r.Some? ==> r.value < |s| && Matches(s[r.value], key)
    ensures r.Some? ==> forall j :: 0 <= j < r.value ==> !Matches(s[j], key)
    ensures r.None? ==> forall j :: 0 <= j < |s| ==> !Matches(s[j], key)
  {
    if |s| == 0 then None
    else if Matches(s[0], key) then Some(0)
    else match FirstMatch(s[1..], key)
      case None => None
      case Some(i) => Some(i + 1)
  }

  /** `next((r for r in patient_records if r['timestamp'] == timestamp), None)`. */
  function Find(s: seq<PatientRecord>, key: Option<string>): (r: Option<PatientRecord>)
    ensures r.None? <==> forall j :: 0 <= j < |s| ==> !Matches(s[j], key)
    ensures r.Some? ==> exists i :: 0 <= i < |s| && s[i] == r.value && Matches(s[i], key)
                                   && forall j :: 0 <= j < i ==> !Matches(s[j], key)
  {
    match FirstMatch(s, key)
    case None => None
    case Some(i) => Some(s[i])
  }

  /** The first match depends only on the timestamps, in order. */
  lemma {:induction false} FirstMatchByTimestamps(s: seq<PatientRecord>, t: seq<PatientRecord>, key: Option<string>)
    requires |s| == |t|
    requires forall i :: 0 <= i < |s| ==> s[i].timestamp == t[i].timestamp
    ensures FirstMatch(s, key) == FirstMatch(t, key)
  {
    if |s| > 0 && !Matches(s[0], key) {
      FirstMatchByTimestamps(s[1..], t[1..], key);
    }
  }

  /** A matching position with no match before it is the one the loop stops at. */
  lemma FirstMatchAt(s: seq<PatientRecord>, key: Option<string>, i: nat)
    requires i < |s| && Matches(s[i], key)
    requires forall j :: 0 <= j < i ==> !Matches(s[j], key)
    ensures FirstMatch(s, key) == Some(i)
  {
    assert FirstMatch(s, key).Some?;
  }

  /** A record appended after the others is found by its timestamp only when
      no earlier record has that timestamp; otherwise the earlier one shadows it. */
  lemma FindAfterAppend(s: seq<PatientRecord>, r: PatientRecord, key: Option<string>)
    ensures Find(s + [r], key) ==
      if FirstMatch(s, key).Some? then Find(s, key)
      else if Matches(r, key) then Some(r)
      else None
  {
    var t := s + [r];
    assert forall j :: 0 <= j < |s| ==> t[j] == s[j];
    match FirstMatch(s, key)
    case Some(i) =>
      FirstMatchAt(t, key, i);
    case None =>
      if Matches(r, key) {
        FirstMatchAt(t, key, |s|);
      } else {
        assert forall j :: 0 <= j < |t| ==> !Matches(t[j], key);
      }
  }

  // ---------------------------------------------------------------------
  // In-place updates of one record

  /** The field changes the handlers make to the record their loop stops at. */
  datatype Update =
    | DoctorMessage(reply: Reply, marksReplied: bool)   // doctor_reply (true), chat_reply_doctor (false)
    | PatientMessage(reply: Reply)                       // patient_reply, chat_reply
    | SetFollowUp(flag: bool)                            // flag_follow_up, unflag_follow_up
    | AttachAudio(audioPath: string)                     // upload_audio
    | AttachPdf(pdfPath: string)                         // download_pdf

  /** The fields fixed when the record was created and never written again. */
  predicate SameEncounter(a: PatientRecord, b: PatientRecord) {
    && a.timestamp == b.timestamp
    && a.imagePath == b.imagePath
    && a.symptoms == b.symptoms
    && a.voiceReplyPath == b.voiceReplyPath
    && a.doctor == b.doctor
    && a.prediction == b.prediction
    && a.confidence == b.confidence
    && a.username == b.username
  }

  /** The updates that overwrite one field with a given value (as opposed to
      appending to a log). */
  predicate IsSetter(u: Update) {
    u.SetFollowUp? || u.AttachAudio? || u.AttachPdf?
  }

  function Apply(r: PatientRecord, u: Update): (r': PatientRecord)
    // creation-time fields, owner included, never change
    ensures SameEncounter(r, r')
    // both reply logs are append-only, and only a message adds exactly one entry
    ensures Log(r.doctorReplies) <= Log(r'.doctorReplies)
    ensures Log(r.patientReplies) <= Log(r'.patientReplies)
    ensures |Log(r'.doctorReplies)| + |Log(r'.patientReplies)|
         == |Log(r.doctorReplies)| + |Log(r.patientReplies)| + (if IsSetter(u) then 0 else 1)
    // the status only moves from Pending to Replied, and only on a doctor reply
    ensures r'.status != r.status ==> r'.status == Replied && u.DoctorMessage? && u.marksReplied
  {
    match u
    case DoctorMessage(m, marks) =>
      r.(doctorReplies := Some(Log(r.doctorReplies) + [m]),
         status := if marks then Replied else r.status)
    case PatientMessage(m) => r.(patientReplies := Some(Log(r.patientReplies) + [m]))
    case SetFollowUp(b) => r.(followUp := Some(b))
    case AttachAudio(p) => r.(audioPath := Some(p))
    case AttachPdf(p) => r.(pdfPath := Some(p))
  }

  /** Setting a field twice is setting it once. */
  lemma ApplySetterIdempotent(r: PatientRecord, u: Update)
    requires IsSetter(u)
    ensures Apply(Apply(r, u), u) == Apply(r, u)
  {
  }

  /** The effect of one `for record in patient_records: if …: <update>; break`
      loop: the earliest record with the timestamp is updated, nothing else. */
  function ApplyFirst(s: seq<PatientRecord>, key: Option<string>, u: Update): (t: seq<PatientRecord>)
    ensures |t| == |s|
    ensures FirstMatch(s, key).None? ==> t == s
    ensures forall i :: 0 <= i < |s| && FirstMatch(s, key) != Some(i) ==> t[i] == s[i]
    ensures forall i :: 0 <= i < |s| ==> SameEncounter(s[i], t[i])
    ensures FirstMatch(t, key) == FirstMatch(s, key)
  {
    match FirstMatch(s, key)
    case None => s
    case Some(i) =>
      var t := s[i := Apply(s[i], u)];
      FirstMatchByTimestamps(s, t, key);
      t
  }

  /** `doctor_reply` appends exactly one entry to the first match's doctor log
      (an absent log becoming a one-entry log) and marks it Replied;
      `chat_reply_doctor` does the same but leaves the status alone. */
  lemma DoctorMessageEffect(s: seq<PatientRecord>, key: Option<string>, m: Reply, marks: bool)
    requires FirstMatch(s, key).Some?
    ensures var i := FirstMatch(s, key).value;
            var t := ApplyFirst(s, key, DoctorMessage(m, marks));
            && t[i].doctorReplies == Some(Log(s[i].doctorReplies) + [m])
            && t[i].status == (if marks then Replied else s[i].status)
            && t[i].patientReplies == s[i].patientReplies
            && t[i].followUp == s[i].followUp
            && t[i].audioPath == s[i].audioPath
            && t[i].pdfPath == s[i].pdfPath
  {
  }

  /** `patient_reply` and `chat_reply` append exactly one entry to the first
      match's patient log and change no other field, the status included. */
  lemma PatientMessageEffect(s: seq<PatientRecord>, key: Option<string>, m: Reply)
    requires FirstMatch(s, key).Some?
    ensures var i := FirstMatch(s, key).value;
            var t := ApplyFirst(s, key, PatientMessage(m));
            && t[i].patientReplies == Some(Log(s[i].patientReplies) + [m])
            && t[i].status == s[i].status
            && t[i].doctorReplies == s[i].doctorReplies
            && t[i].followUp == s[i].followUp
            && t[i].audioPath == s[i].audioPath
            && t[i].pdfPath == s[i].pdfPath
  {
  }

  /** `flag_follow_up`, `unflag_follow_up`, `upload_audio` and the end of
      `download_pdf` overwrite exactly their own field of the first match:
      the logs and the status stay as they were. */
  lemma SetterEffect(s: seq<PatientRecord>, key: Option<string>, u: Update)
    requires IsSetter(u) && FirstMatch(s, key).Some?
    ensures var i := FirstMatch(s, key).value;
            var t := ApplyFirst(s, key, u);
            && t[i].doctorReplies == s[i].doctorReplies
            && t[i].patientReplies == s[i].patientReplies
            && t[i].status == s[i].status
            && t[i].followUp == (if u.SetFollowUp? then Some(u.flag) else s[i].followUp)
            && t[i].audioPath == (if u.AttachAudio? then Some(u.audioPath) else s[i].audioPath)
            && t[i].pdfPath == (if u.AttachPdf? then Some(u.pdfPath) else s[i].pdfPath)
  {
  }

  /** The first doctor reply moves Pending to Replied; once Replied, every
      later update keeps it Replied. */
  lemma RepliedIsFinal(s: seq<PatientRecord>, key: Option<string>, u: Update, i: nat)
    requires i < |s| && s[i].status == Replied
    ensures ApplyFirst(s, key, u)[i].status == Replied
  {
  }

  /** Setting the follow-up flag, the audio path or the PDF path twice in a
      row is the same as setting it once. */
  lemma {:induction false} ApplyFirstSetterIdempotent(s: seq<PatientRecord>, key: Option<string>, u: Update)
    requires IsSetter(u)
    ensures ApplyFirst(ApplyFirst(s, key, u), key, u) == ApplyFirst(s, key, u)
  {
    var t := ApplyFirst(s, key, u);
    match FirstMatch(s, key)
    case None =>
    case Some(i) =>
      assert FirstMatch(t, key) == Some(i);
      ApplySetterIdempotent(s[i], u);
      assert t[i := Apply(t[i], u)] == t;
  }

  // ---------------------------------------------------------------------
  // Comprehensions over the whole list

  /** `[r for r in patient_records if r["timestamp"] != timestamp]`. */
  function RemoveKey(s: seq<PatientRecord>, key: string): (t: seq<PatientRecord>)
    ensures |t| <= |s|
    ensures forall j :: 0 <= j < |t| ==> t[j] in s && t[j].timestamp != key
    ensures forall j :: 0 <= j < |s| && s[j].timestamp != key ==> s[j] in t
  {
    if s == [] then []
    else if s[0].timestamp != key then [s[0]] + RemoveKey(s[1..], key)
    else RemoveKey(s[1..], key)
  }

  /** Deleting keeps the surviving records in their original order. */
  lemma {:induction false} RemoveKeyAppend(a: seq<PatientRecord>, b: seq<PatientRecord>, key: string)
    ensures RemoveKey(a + b, key) == RemoveKey(a, key) + RemoveKey(b, key)
  {
    if a == [] {
      assert a + b == b;
    } else {
      assert (a + b)[0] == a[0];
      assert (a + b)[1..] == a[1..] + b;
      RemoveKeyAppend(a[1..], b, key);
    }
  }

  /** Deleting a timestamp no record has changes nothing. */
  lemma {:induction false} RemoveKeyAbsent(s: seq<PatientRecord>, key: string)
    requires forall j :: 0 <= j < |s| ==> s[j].timestamp != key
    ensures RemoveKey(s, key) == s
  {
    if s != [] {
      RemoveKeyAbsent(s[1..], key);
      assert [s[0]] + s[1..] == s;
    }
  }

  /** Deleting twice is deleting once, and afterwards the timestamp is not found. */
  lemma RemoveKeyIdempotent(s: seq<PatientRecord>, key: string)
    ensures RemoveKey(RemoveKey(s, key), key) == RemoveKey(s, key)
    ensures Find(RemoveKey(s, key), Some(key)) == None
  {
    RemoveKeyAbsent(RemoveKey(s, key), key);
  }

  /** `[r for r in patient_records if r.get("username") == username]`. An
      absent session username selects the records submitted without one. */
  function OwnedBy(s: seq<PatientRecord>, username: Option<string>): (t: seq<PatientRecord>)
    ensures |t| <= |s|
    ensures forall j :: 0 <= j < |t| ==> t[j] in s && t[j].username == username
    ensures forall j :: 0 <= j < |s| && s[j].username == username ==> s[j] in t
  {
    if s == [] then []
    else if s[0].username == username then [s[0]] + OwnedBy(s[1..], username)
    else OwnedBy(s[1..], username)
  }

  /** The dashboard lists a user's records in insertion order. */
  lemma {:induction false} OwnedByAppend(a: seq<PatientRecord>, b: seq<PatientRecord>, username: Option<string>)
    ensures OwnedBy(a + b, username) == OwnedBy(a, username) + OwnedBy(b, username)
  {
    if a == [] {
      assert a + b == b;
    } else {
      assert (a + b)[0] == a[0];
      assert (a + b)[1..] == a[1..] + b;
      OwnedByAppend(a[1..], b, username);
    }
  }

  /** A new submission shows up last on its owner's dashboard and on no one else's. */
  lemma OwnedByAfterSubmission(s: seq<PatientRecord>, r: PatientRecord, username: Option<string>)
    ensures OwnedBy(s + [r], username) ==
      if r.username == username then OwnedBy(s, username) + [r] else OwnedBy(s, username)
  {
    OwnedByAppend(s, [r], username);
    assert [r][1..] == [];
  }

  /** The in-place updates never move a record from one owner's dashboard to
      another's: the filtered list has the same length before and after. */
  lemma {:induction false} OwnedByApplyFirstLength(s: seq<PatientRecord>, key: Option<string>, u: Update, username: Option<string>)
    ensures |OwnedBy(ApplyFirst(s, key, u), username)| == |OwnedBy(s, username)|
  {
    var t := ApplyFirst(s, key, u);
    OwnedBySameOwners(s, t, username);
  }

  /** Helper: the length of an owner filter depends only on the owners, in order. */
  lemma {:induction false} OwnedBySameOwners(s: seq<PatientRecord>, t: seq<PatientRecord>, username: Option<string>)
    requires |s| == |t|
    requires forall i :: 0 <= i < |s| ==> s[i].username == t[i].username
    ensures |OwnedBy(s, username)| == |OwnedBy(t, username)|
  {
    if s != [] {
      OwnedBySameOwners(s[1..], t[1..], username);
    }
  }
}
