/** The request handlers over the process-wide state: the record list and the
    user table. The session user, the clock, the classifier score, the random
    draws and `secure_filename` are passed in; results are status values. */
module App {
  import opened Optional
  import opened Records
  import opened Submission
  import Users
  import opened Report

  /** The pages a handler redirects to. */
  datatype Page =
    | DoctorDashboard
    | PatientDashboard
    | ChatPage(timestamp: Option<string>)
    | ChatDoctorPage(timestamp: Option<string>)

  datatype Response =
    | Redirect(to: Page)
    | Failure(code: nat, message: string)
    | Message(text: string)
    | ResultView(record: PatientRecord)
    | ChatView(record: PatientRecord, asDoctor: bool)
    | LoginForm(error: string)
    | SignedIn(username: string, role: string, to: Page)
    | PdfAttachment(report: PdfReport)

  /** Doctors land on the doctor dashboard, every other role on the patient one. */
  function LandingFor(role: string): (p: Page)
    ensures p == DoctorDashboard <==> role == "doctor"
    ensures p == DoctorDashboard || p == PatientDashboard
  {
    if role == "doctor" then DoctorDashboard else PatientDashboard
  }

  /** `os.path.join(UPLOAD_AUDIO_FOLDER, f"{timestamp}_{filename}")`. */
  function AudioPath(timestamp: string, securedName: string): string {
    "static/audio/" + timestamp + "_" + securedName
  }

  /** The response a login step produces. */
  function LoginResponse(o: Users.LoginOutcome): Response {
    match o
    case Rejected(e) => LoginForm(e)
    case LoggedIn(u, r) => SignedIn(u, r, LandingFor(r))
  }

  /** The symptoms of a lookup result, None when nothing was found. */
  function SymptomsOf(r: Option<PatientRecord>): Option<Symptoms> {
    match r
    case None => None
    case Some(rec) => Some(rec.symptoms)
  }

  class Clinic {
    /** `patient_records` */
    var records: seq<PatientRecord>
    /** `users` */
    var users: map<string, Users.User>

    constructor ()
      ensures records == [] && users == map[]
    {
      records := [];
      users := map[];
    }

    /** The `for record in patient_records: if record["timestamp"] == timestamp:
        <update>; break` loop shared by the reply, flag and attachment handlers. */
    method UpdateFirst(key: Option<string>, u: Update)
      modifies this`records
      ensures records == ApplyFirst(old(records), key, u)
    {
      var i := 0;
      while i < |records|
        invariant 0 <= i <= |records|
        invariant records == old(records)
        invariant forall j :: 0 <= j < i ==> !Matches(records[j], key)
      {
        if Matches(records[i], key) {
          assert FirstMatch(records, key) == Some(i);
          records := records[i := Apply(records[i], u)];
          return;
        }
        i := i + 1;
      }
    }

    /** The lookup loop of `download_pdf` and `patient_download_pdf`: the
        symptoms of the first record with the timestamp. */
    method FirstSymptoms(key: Option<string>) returns (symptoms: Option<Symptoms>)
      ensures symptoms.None? <==> forall j :: 0 <= j < |records| ==> !Matches(records[j], key)
      ensures symptoms.Some? ==>
                exists i :: 0 <= i < |records| && Matches(records[i], key) && records[i].symptoms == symptoms.value
                            && forall j :: 0 <= j < i ==> !Matches(records[j], key)
      ensures symptoms == SymptomsOf(Find(records, key))
    {
      symptoms := None;
      var i := 0;
      while i < |records|
        invariant 0 <= i <= |records|
        invariant forall j :: 0 <= j < i ==> !Matches(records[j], key)
      {
        if Matches(records[i], key) {
          symptoms := Some(records[i].symptoms);
          FirstMatchAt(records, key, i);
          return;
        }
        i := i + 1;
      }
    }

    /** `predict`: without an image, 400 and no change; otherwise one record
        labelled from the score is appended and shown. */
    method Predict(image: Option<string>, timestamp: string, form: SymptomForm, score: real,
                   confidence: real, username: Option<string>) returns (res: Response)
      modifies this`records
      ensures !FileProvided(image) ==> res == Failure(400, "No image provided") && records == old(records)
      ensures FileProvided(image) ==>
                var r := PredictedRecord(timestamp, form, score, confidence, username);
                records == old(records) + [r] && res == ResultView(r)
    {
      if !FileProvided(image) {
        return Failure(400, "No image provided");
      }
      var r := PredictedRecord(timestamp, form, score, confidence, username);
      records := records + [r];
      res := ResultView(r);
    }

    /** `submit_patient_data`: like `predict` without the classifier. */
    method SubmitPatientData(image: Option<string>, timestamp: string, form: SymptomForm,
                             username: Option<string>) returns (res: Response)
      modifies this`records
      ensures !FileProvided(image) ==> res == Failure(400, "No image provided") && records == old(records)
      ensures FileProvided(image) ==>
                records == old(records) + [SubmittedRecord(timestamp, form, username)]
                && res == Redirect(PatientDashboard)
    {
      if !FileProvided(image) {
        return Failure(400, "No image provided");
      }
      records := records + [SubmittedRecord(timestamp, form, username)];
      res := Redirect(PatientDashboard);
    }

    /** `doctor_reply`: one entry on the first match's doctor log, status Replied. */
    method DoctorReply(key: Option<string>, message: Option<string>, time: string) returns (res: Response)
      modifies this`records
      ensures records == ApplyFirst(old(records), key, DoctorMessage(Reply(message, time), true))
      ensures res == Redirect(DoctorDashboard)
    {
      UpdateFirst(key, DoctorMessage(Reply(message, time), true));
      res := Redirect(DoctorDashboard);
    }

    /** `chat_reply_doctor`: one entry on the first match's doctor log, status unchanged. */
    method ChatReplyDoctor(key: Option<string>, message: Option<string>, time: string) returns (res: Response)
      modifies this`records
      ensures records == ApplyFirst(old(records), key, DoctorMessage(Reply(message, time), false))
      ensures res == Redirect(ChatDoctorPage(key))
    {
      UpdateFirst(key, DoctorMessage(Reply(message, time), false));
      res := Redirect(ChatDoctorPage(key));
    }

    /** `patient_reply`: one entry on the first match's patient log. */
    method PatientReply(key: Option<string>, message: Option<string>, time: string) returns (res: Response)
      modifies this`records
      ensures records == ApplyFirst(old(records), key, PatientMessage(Reply(message, time)))
      ensures res == Redirect(PatientDashboard)
    {
      UpdateFirst(key, PatientMessage(Reply(message, time)));
      res := Redirect(PatientDashboard);
    }

    /** `chat_reply`: as `patient_reply`, back to the chat page. */
    method ChatReply(key: Option<string>, message: Option<string>, time: string) returns (res: Response)
      modifies this`records
      ensures records == ApplyFirst(old(records), key, PatientMessage(Reply(message, time)))
      ensures res == Redirect(ChatPage(key))
    {
      UpdateFirst(key, PatientMessage(Reply(message, time)));
      res := Redirect(ChatPage(key));
    }

    /** `delete_record`: 400 for a missing timestamp, otherwise every record
        with that timestamp is dropped. */
    method DeleteRecord(key: Option<string>) returns (res: Response)
      modifies this`records
      ensures Blank(key) ==> res == Failure(400, "Timestamp is missing") && records == old(records)
      ensures !Blank(key) ==> records == RemoveKey(old(records), key.value) && res == Redirect(DoctorDashboard)
    {
      if Blank(key) {
        return Failure(400, "Timestamp is missing");
      }
      records := RemoveKey(records, key.value);
      res := Redirect(DoctorDashboard);
    }

    /** `patient_dashboard`: the session user's records, in insertion order. */
    method PatientDashboardRecords(username: Option<string>) returns (mine: seq<PatientRecord>)
      ensures mine == OwnedBy(records, username)
      ensures forall r :: r in records && r.username == username <==> r in mine
    {
      mine := OwnedBy(records, username);
    }

    /** `chat` (asDoctor false) and `chat_doctor` (asDoctor true): the first
        record with the timestamp, or 404. */
    method OpenChat(key: Option<string>, asDoctor: bool) returns (res: Response)
      ensures res.Failure? <==> forall j :: 0 <= j < |records| ==> !Matches(records[j], key)
      ensures res.Failure? ==> res == Failure(404, "Record not found")
      ensures res.ChatView? ==> res.asDoctor == asDoctor && Some(res.record) == Find(records, key)
      ensures res.Failure? || res.ChatView?
    {
      match Find(records, key)
      case None => res := Failure(404, "Record not found");
      case Some(r) => res := ChatView(r, asDoctor);
    }

    /** `flag_follow_up` */
    method FlagFollowUp(key: Option<string>) returns (res: Response)
      modifies this`records
      ensures records == ApplyFirst(old(records), key, SetFollowUp(true))
      ensures res == Redirect(DoctorDashboard)
    {
      UpdateFirst(key, SetFollowUp(true));
      res := Redirect(DoctorDashboard);
    }

    /** `unflag_follow_up` */
    method UnflagFollowUp(key: Option<string>) returns (res: Response)
      modifies this`records
      ensures records == ApplyFirst(old(records), key, SetFollowUp(false))
      ensures res == Redirect(DoctorDashboard)
    {
      UpdateFirst(key, SetFollowUp(false));
      res := Redirect(DoctorDashboard);
    }

    /** `upload_audio`: 400 without a file or a timestamp; otherwise the first
        match gets the audio path. `securedName` is `secure_filename(audio.filename)`. */
    method UploadAudio(audio: Option<string>, key: Option<string>, securedName: string) returns (res: Response)
      modifies this`records
      ensures !FileProvided(audio) ==> res == Failure(400, "No audio file uploaded") && records == old(records)
      ensures FileProvided(audio) && Blank(key) ==>
                res == Failure(400, "Timestamp is missing") && records == old(records)
      ensures FileProvided(audio) && !Blank(key) ==>
                && records == ApplyFirst(old(records), key, AttachAudio(AudioPath(key.value, securedName)))
                && res == Message("Audio uploaded successfully")
    {
      if !FileProvided(audio) {
        return Failure(400, "No audio file uploaded");
      }
      if Blank(key) {
        return Failure(400, "Timestamp is missing");
      }
      UpdateFirst(key, AttachAudio(AudioPath(key.value, securedName)));
      res := Message("Audio uploaded successfully");
    }

    /** `download_pdf`: the report rows from the form and the first match's
        symptoms, then the report path recorded on the first match. Without
        an `image_path` the image page fails (`os.path.abspath(None)` raises),
        so the answer is 500 and no record is touched. */
    method DownloadPdf(form: PdfForm, d: Draw) returns (res: Response)
      requires ValidDraw(d)
      modifies this`records
      ensures form.imagePath.None? ==> res == Failure(500, "Error generating PDF") && records == old(records)
      ensures form.imagePath.Some? ==>
                && res == PdfAttachment(ComposeReport(form, SymptomsOf(Find(old(records), form.timestamp)), d))
                && records == ApplyFirst(old(records), form.timestamp, AttachPdf(ReportPath(form.timestamp)))
    {
      if form.imagePath.None? {
        return Failure(500, "Error generating PDF");
      }
      var symptoms := FirstSymptoms(form.timestamp);
      var report := ComposeReport(form, symptoms, d);
      UpdateFirst(form.timestamp, AttachPdf(report.path));
      res := PdfAttachment(report);
    }

    /** `patient_download_pdf`: 400 without a timestamp, 404 without a record;
        otherwise it calls `generate_pdf`, which always fails (it reads
        `predicted_img_path` before assigning it) and answers 500. */
    method PatientDownloadPdf(key: Option<string>) returns (res: Response)
      ensures Blank(key) ==> res == Failure(400, "Timestamp is missing")
      ensures !Blank(key) && (forall j :: 0 <= j < |records| ==> !Matches(records[j], key)) ==>
                res == Failure(404, "No record found for the given timestamp")
      ensures !Blank(key) && (exists j :: 0 <= j < |records| && Matches(records[j], key)) ==>
                res == Failure(500, "PDF generation failed")
    {
      if Blank(key) {
        return Failure(400, "Timestamp is missing");
      }
      var symptoms := FirstSymptoms(key);
      if symptoms.None? {
        return Failure(404, "No record found for the given timestamp");
      }
      res := Failure(500, "PDF generation failed");
    }

    /** `login` (POST): create-or-authenticate against the user table. */
    method Login(username: Option<string>, password: Option<string>, role: Option<string>) returns (res: Response)
      modifies this`users
      ensures var step := Users.Login(old(users), username, password, role);
              users == step.users && res == LoginResponse(step.outcome)
    {
      if Blank(username) || Blank(password) {
        return LoginForm(Users.FillAllFields);
      }
      var name := username.value;
      var sessionRole: string;
      if name in users {
        if users[name].password != password.value {
          return LoginForm(Users.InvalidPassword);
        }
        sessionRole := users[name].role;
      } else {
        sessionRole := ValueOr(role, Users.DefaultRole);
        users := users[name := Users.User(password.value, sessionRole)];
      }
      res := SignedIn(name, sessionRole, LandingFor(sessionRole));
    }
  }

  /** A client of the handlers: a patient submits, the doctor replies twice,
      the patient opens the chat, and the doctor deletes the record. */
  method ReplyLifecycle(form: SymptomForm, t1: string, t2: string)
  {
    var ts := "20250101_093000";
    var c := new Clinic();
    var r := c.SubmitPatientData(Some("mouth.jpg"), ts, form, Some("asha"));
    assert c.records == [SubmittedRecord(ts, form, Some("asha"))];
    assert FirstMatch(c.records, Some(ts)) == Some(0);
    r := c.DoctorReply(Some(ts), Some("Please visit"), t1);
    assert c.records[0].status == Replied;
    r := c.DoctorReply(Some(ts), Some("Reminder"), t2);
    assert Log(c.records[0].doctorReplies) == [Reply(Some("Please visit"), t1), Reply(Some("Reminder"), t2)];
    assert c.records[0].status == Replied;
    var view := c.OpenChat(Some(ts), false);
    assert view.ChatView? && view.record == c.records[0];
    ghost var before := c.records;
    assert |before| == 1 && before[0].timestamp == ts && before[1..] == [];
    r := c.DeleteRecord(Some(ts));
    assert c.records == RemoveKey(before, ts) == [];
  }
}
