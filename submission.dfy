/** Building the record that `predict` and `submit_patient_data` append: the
    risk label rule, the symptom defaults and the fields of a fresh record. */
module Submission {
  import opened Optional
  import opened Records

  const RiskCancer: string := "Risk (Cancer)"
  const LowRisk: string := "Low Risk (Non-Cancer)"
  /** The decision threshold on the classifier's score. */
  const Threshold: real := 0.5
  const AssignedDoctor: string := "Dr. John Doe"
  /** `os.path.join("static", "uploads")`. */
  const UploadImageFolder: string := "static/uploads"

  /** The risk label for a classifier score: a score below the threshold is
      read as cancer risk, and the threshold itself is not. */
  function RiskLabel(score: real): (l: string)
    ensures l == RiskCancer || l == LowRisk
    ensures l == RiskCancer <==> score < Threshold
  {
    if score < Threshold then RiskCancer else LowRisk
  }

  /** The label rule is monotone: a lower score never gives a lower risk. */
  lemma RiskLabelMonotone(lower: real, higher: real)
    requires lower <= higher
    ensures RiskLabel(higher) == RiskCancer ==> RiskLabel(lower) == RiskCancer
    ensures RiskLabel(lower) == LowRisk ==> RiskLabel(higher) == LowRisk
  {
  }

  /** The symptom fields as the form sent them. */
  datatype SymptomForm = SymptomForm(
    painLevel: Option<string>,
    bleeding: Option<string>,
    swelling: Option<string>,
    duration: Option<string>,
    history: Option<string>,
    habits: seq<string>,
    tobaccoYears: Option<string>,
    alcoholYears: Option<string>,
    smokingYears: Option<string>,
    trismusTest: Option<string>,
    mouthPain: Option<string>,
    extraDetails: Option<string>)

  /** The `symptoms` dictionary: the first five fields as sent, the last six
      defaulting to the empty string. */
  function CollectSymptoms(f: SymptomForm): Symptoms {
    Symptoms(f.painLevel, f.bleeding, f.swelling, f.duration, f.history, f.habits,
             ValueOr(f.tobaccoYears, ""), ValueOr(f.alcoholYears, ""), ValueOr(f.smokingYears, ""),
             ValueOr(f.trismusTest, ""), ValueOr(f.mouthPain, ""), ValueOr(f.extraDetails, ""))
  }

  /** Where the uploaded image is saved: `<folder>/<timestamp>.jpg`. */
  function ImagePath(timestamp: string): string {
    UploadImageFolder + "/" + timestamp + ".jpg"
  }

  /** An upload (image or audio) is present when the file part exists and has a non-empty name. */
  predicate FileProvided(filename: Option<string>) {
    filename.Some? && filename.value != ""
  }

  /** A freshly submitted record: Pending, an empty doctor log, no patient
      log, no flag and no attachments, owned by the session user. */
  function NewRecord(timestamp: string, form: SymptomForm, prediction: string,
                     confidence: Confidence, username: Option<string>): (r: PatientRecord)
    ensures r.timestamp == timestamp && r.username == username
    ensures r.status == Pending && r.doctorReplies == Some([]) && Log(r.patientReplies) == []
    ensures r.imagePath == ImagePath(timestamp)
    ensures r.prediction == prediction && r.confidence == confidence
    ensures r.followUp == None && r.audioPath == None && r.pdfPath == None && r.voiceReplyPath == None
    // the first five answers as sent, the rest defaulting to ""
    ensures r.symptoms.painLevel == form.painLevel && r.symptoms.bleeding == form.bleeding
            && r.symptoms.swelling == form.swelling && r.symptoms.duration == form.duration
            && r.symptoms.history == form.history
    ensures r.symptoms.habits == form.habits
    ensures r.symptoms.tobaccoYears == ValueOr(form.tobaccoYears, "")
            && r.symptoms.alcoholYears == ValueOr(form.alcoholYears, "")
            && r.symptoms.smokingYears == ValueOr(form.smokingYears, "")
    ensures r.symptoms.trismusTest == ValueOr(form.trismusTest, "")
            && r.symptoms.mouthPain == ValueOr(form.mouthPain, "")
            && r.symptoms.extraDetails == ValueOr(form.extraDetails, "")
  {
    PatientRecord(timestamp, ImagePath(timestamp), CollectSymptoms(form), Some([]), None, Pending,
                  None, AssignedDoctor, prediction, confidence, username, None, None, None)
  }

  /** The record `predict` stores: the label follows the score, the confidence
      is the drawn number (not derived from the score). */
  function PredictedRecord(timestamp: string, form: SymptomForm, score: real,
                           confidence: real, username: Option<string>): (r: PatientRecord)
    ensures r.prediction == RiskCancer <==> score < Threshold
    ensures r.status == Pending && r.doctorReplies == Some([]) && r.username == username
  {
    NewRecord(timestamp, form, RiskLabel(score), Drawn(confidence), username)
  }

  /** The record `submit_patient_data` stores: always the non-cancer label and
      the confidence "95", whatever the image. */
  function SubmittedRecord(timestamp: string, form: SymptomForm, username: Option<string>): (r: PatientRecord)
    ensures r.prediction == LowRisk && r.confidence == Stated("95")
    ensures r.status == Pending && r.doctorReplies == Some([]) && r.username == username
  {
    NewRecord(timestamp, form, LowRisk, Stated("95"), username)
  }

  /** Right after a submission whose timestamp no earlier record has, looking
      the timestamp up finds the new record; with a colliding timestamp the
      older record is found instead. */
  lemma SubmissionFindable(s: seq<PatientRecord>, r: PatientRecord)
    ensures FirstMatch(s, Some(r.timestamp)).None? ==> Find(s + [r], Some(r.timestamp)) == Some(r)
    ensures FirstMatch(s, Some(r.timestamp)).Some? ==>
              Find(s + [r], Some(r.timestamp)) == Find(s, Some(r.timestamp))
  {
    FindAfterAppend(s, r, Some(r.timestamp));
  }
}
