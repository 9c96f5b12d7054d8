# Oral-cancer triage app: record store, rules and report rows

This project models the core of a small Flask clinical-triage application (`app.py`). Patients upload a mouth photograph with symptom answers. The app labels the encounter with a risk label, keeps the record in a process-wide list, and lets doctor and patient exchange messages on the record. It can also compose a PDF report. The model covers:

- **The record store** (`Records`, `App.Clinic`). The global `patient_records` list is the `seq<PatientRecord>` field `records` of class `Clinic`. Every record is keyed by a `timestamp` string, and nothing makes timestamps unique. The reply, flag and attachment handlers run a `for … if … break` loop. That loop is the method `Clinic.UpdateFirst`, specified by the function `ApplyFirst`: it updates only the FIRST record with the timestamp. `delete_record` is a comprehension (`RemoveKey`) that drops ALL records with the timestamp. `patient_dashboard` is the owner filter `OwnedBy`. `chat` and `chat_doctor` are the first-match lookup `Find`.
- **The risk label rule** (`Submission.RiskLabel`). The classifier score is an abstract real. A score below 0.5 is "Risk (Cancer)"; 0.5 itself is "Low Risk (Non-Cancer)".
- **Record construction** for `predict` and `submit_patient_data` (`Submission`).
- **The user table and login** (`Users.Login`, `Clinic.Login`). The `users` dict is the `map` field `users`. Login is create-or-authenticate.
- **The report rows of `download_pdf`** (`Report`). These are the parameter/value rows, the five clinical-observation rows and the summary paragraph. The decorative clinical details come from `generate_clinical_details`, with the random choices passed in as catalog positions.
- **`remove_invalid_chars`** (`Text`). The Unicode "Mn" category test is a parameter.

Form fields are `Option<string>`, because Flask's `form.get` returns `None` for a missing field. A missing timestamp matches no record. "Blank" (`None` or `""`) is Python's `not x`. The session user, the clock (`datetime.now()`), the classifier score, the random confidence, the random catalog choices and `secure_filename` are all method parameters. Responses are values: a redirect target, an error code with its message, or a view.

Behaviour of the code the model keeps:

- Only `doctor_reply` sets the status to Replied. `chat_reply_doctor` appends to the same doctor log and leaves the status alone (`DoctorMessage(reply, marksReplied)`).
- Nothing makes timestamps unique. A submission that reuses an existing timestamp is shadowed: lookups, replies and flags keep reaching the older record (`Records.FindAfterAppend`, `Submission.SubmissionFindable`), while `delete_record` removes both.
- With no `timestamp`, or one no record has, `download_pdf` answers neither 400 nor 404: it still builds a report from an empty symptom dictionary, with the defaults "None", "Not answered" and "Not answered" (`Report.NoRecordDefaults`). Only `patient_download_pdf` checks the timestamp and the record. After passing both checks it always answers 500, because `generate_pdf` reads `predicted_img_path` before assigning it. `download_pdf` with no `image_path` answers 500 as well, because `os.path.abspath(None)` raises before the report is saved.
- With no session user, `patient_dashboard` lists every record that was submitted without a user.
- The first seven report values of `download_pdf` come from the request form, not from the stored record. Prediction, confidence, pain level, bleeding, swelling, duration and history are read from the form (`str(None)` gives "None"). The habit rows and the last three rows come from the stored record.

## Model

| member | source | states |
|---|---|---|
| `Records.FirstMatch` | app.py:589-598 | the loop stops at the earliest record whose timestamp equals the requested one; None exactly when no record has it |
| `Records.Find` | app.py:853-855 | the lookup yields None exactly when no record has the timestamp, and otherwise the earliest record that has it |
| `Records.FirstMatchByTimestamps` | app.py:589-590 | which record the loop stops at depends only on the timestamps, in order |
| `Records.FirstMatchAt` | app.py:589-590 | a position that matches, with no match before it, is exactly where the loop stops |
| `Records.FindAfterAppend` | app.py:113 | after an append, a lookup finds the earlier record when one has the key, the new record only when none does |
| `Records.Apply` | app.py:591-597 | an update never changes the creation-time fields or the owner, keeps both reply logs append-only, adds exactly one log entry for a message and none otherwise, and moves the status only from Pending to Replied, only on a status-setting doctor reply |
| `Records.ApplySetterIdempotent` | app.py:819-835 | setting the flag or an attachment path twice equals setting it once |
| `Records.ApplyFirst` | app.py:589-598 | only the first matching record changes; with no match the list is unchanged; length, timestamps and owners are preserved, so the same record stays the first match |
| `Records.DoctorMessageEffect` | app.py:585-599 | the doctor log becomes the old log (empty if absent) plus exactly the new entry; the status becomes Replied for `doctor_reply` and is untouched for `chat_reply_doctor`; the patient log, the flag and the paths are unchanged |
| `Records.PatientMessageEffect` | app.py:601-614 | the patient log becomes the old log (empty if absent) plus exactly the new entry; status, doctor log, flag and paths are unchanged |
| `Records.SetterEffect` | app.py:819-835 | the flag and attachment handlers overwrite only their own field of the first match; logs and status are unchanged |
| `Records.RepliedIsFinal` | app.py:597 | a Replied record stays Replied under every update |
| `Records.ApplyFirstSetterIdempotent` | app.py:819-835 | flagging (or unflagging, or attaching the same path) twice leaves the same list as doing it once |
| `Records.RemoveKey` | app.py:630 | every surviving record is one of the originals with a different timestamp, and every original with a different timestamp survives |
| `Records.RemoveKeyAppend` | app.py:630 | deleting keeps the survivors in their original order |
| `Records.RemoveKeyAbsent` | app.py:630 | deleting a timestamp no record has leaves the list unchanged |
| `Records.RemoveKeyIdempotent` | app.py:630 | deleting twice equals deleting once, and afterwards no record with the timestamp is found |
| `Records.OwnedBy` | app.py:638 | the dashboard holds exactly the records whose owner equals the session user |
| `Records.OwnedByAppend` | app.py:638 | the owner filter preserves insertion order |
| `Records.OwnedByAfterSubmission` | app.py:638 | a new record appears last on its owner's dashboard and on no other |
| `Records.OwnedByApplyFirstLength` | app.py:638 | replies, flags and attachments never change how many records a user's dashboard shows |
| `Submission.RiskLabel` | app.py:84 | the label is one of the two labels, and it is "Risk (Cancer)" exactly when the score is below 0.5 |
| `Submission.RiskLabelMonotone` | app.py:84 | a lower score never gives a lower risk label |
| `Submission.NewRecord` | app.py:88-112 | a new record carries the given timestamp, owner, prediction and confidence and the image path `static/uploads/<timestamp>.jpg`; it is Pending, with an empty doctor log, no patient log, no follow-up flag and no audio, PDF or voice path; it stores the first five answers as sent and the habits, the three years and the last three answers (default "") |
| `Submission.PredictedRecord` | app.py:82-112 | the stored prediction is "Risk (Cancer)" exactly when the score is below 0.5; the record is Pending with an empty doctor log and the session owner |
| `Submission.SubmittedRecord` | app.py:766-790 | the stored prediction is always "Low Risk (Non-Cancer)" and the confidence "95" |
| `Submission.SubmissionFindable` | app.py:113 | right after a submission with a fresh timestamp, a lookup by that timestamp finds the new record; with a colliding one it finds the old record |
| `Users.Login` | app.py:708-724 | an empty field is refused and changes nothing; a refusal never changes the table; entries are never overwritten or removed, and only the given name is added; a known user gets in exactly with the stored password and keeps the stored role; an unknown user is registered with the requested role (default "patient"); every session matches a table entry |
| `Users.LoginAgain` | app.py:716-720 | repeating a successful login changes nothing and gives the same session whatever role is requested |
| `Text.RemoveInvalidChars` | app.py:42-43 | the result is no longer than the input, contains no Mn character and only characters of the input, and keeps every non-Mn character |
| `Text.RemoveInvalidCharsAppend` | app.py:43 | the filter distributes over concatenation, so the kept characters stay in order |
| `Text.RemoveInvalidCharsKeepsClean` | app.py:43 | a text without Mn characters is returned unchanged |
| `Text.RemoveInvalidCharsIdempotent` | app.py:43 | filtering twice equals filtering once |
| `Report.GenerateClinicalDetails` | app.py:666-706 | each field is an entry of its own catalog, the stage is "T1", and no field is empty or a dash |
| `Report.EveryCatalogCombinationDrawable` | app.py:700-706 | every combination of catalog entries with stage "T1" is produced by some draw |
| `Report.ParameterRows` | app.py:183-227 | the table has 11 rows, plus one for a Tobacco habit and one for a Smoking habit |
| `Report.ParameterRowsLayout` | app.py:183-227 | row by row: Prediction, Confidence (with "%"), Pain Level, Bleeding, Swelling, Duration and History show `str()` of the form values; then Habits; then exactly the Tobacco Years and Smoking Years rows of the habits present, in that order; then the stored trismus, mouth-pain and extra-details answers, or "Not answered", "Not answered" and "None" without a record |
| `Report.HabitRowsShown` | app.py:206-217 | "Habits" shows the comma-joined habits or "None"; a "Tobacco Years" row with the stored years appears exactly when "Tobacco" is a habit, likewise "Smoking Years"; there is never an "Alcohol Years" row |
| `Report.NoRecordDefaults` | app.py:220-227 | with no matching record, the table has 11 rows, shows habits "None" and ends with "Not answered", "Not answered", "None" |
| `Report.TobaccoScenario` | app.py:206-213 | a record with habits [Tobacco] and 5 tobacco years shows "Tobacco Years: 5" and "Habits: Tobacco", and no "Smoking Years" row |
| `Report.ClinicalRows` | app.py:238-259 | always five rows with the fixed keys in order; all values are "-" exactly when the prediction is not "Risk (Cancer)"; otherwise they are catalog entries with stage "T1" |
| `Report.Summary` | app.py:265-283 | the summary opens with the HIGH RISK sentence exactly for a "Risk (Cancer)" prediction; otherwise it is the fixed low-risk text |
| `Report.ComposeReport` | app.py:183-283 | the report carries the parameter rows, the observation rows and the summary of the form's prediction (so it inherits their dash and HIGH/LOW RISK rules), and the path `static/report_<timestamp>.pdf` |
| `Report.SummaryMatchesTable` | app.py:238-277 | for a cancer-risk prediction the summary names the same details as the observation table |
| `Report.LowRiskReportIgnoresDraw` | app.py:238-283 | outside a cancer-risk prediction the random draw does not affect the report |
| `App.LandingFor` | app.py:725-730 | doctors are sent to the doctor dashboard, every other role to the patient dashboard |
| `App.Clinic.constructor` | app.py:18-28 | the process starts with no records and no users |
| `App.Clinic.UpdateFirst` | app.py:589-598 | the loop leaves the list equal to `ApplyFirst` of the old list |
| `App.Clinic.FirstSymptoms` | app.py:148-152 | the lookup loop returns None exactly when no record has the timestamp, otherwise the symptoms of the earliest record that has it, which is what `Find` gives |
| `App.Clinic.Predict` | app.py:46-125 | without an image: 400 and no change; otherwise exactly one record labelled from the score is appended and shown |
| `App.Clinic.SubmitPatientData` | app.py:734-799 | without an image: 400 and no change; otherwise exactly one fixed-label record is appended |
| `App.Clinic.DoctorReply` | app.py:585-599 | the list becomes the old list with one doctor entry added to the first match, which is marked Replied |
| `App.Clinic.ChatReplyDoctor` | app.py:883-897 | as `DoctorReply`, without the status change |
| `App.Clinic.PatientReply` | app.py:601-614 | the list becomes the old list with one patient entry added to the first match |
| `App.Clinic.ChatReply` | app.py:867-881 | as `PatientReply`, redirecting to the chat page |
| `App.Clinic.DeleteRecord` | app.py:616-633 | a blank timestamp gives 400 and no change; otherwise the list becomes exactly the records with another timestamp |
| `App.Clinic.PatientDashboardRecords` | app.py:635-639 | the result holds exactly the session user's records, as the owner filter gives them |
| `App.Clinic.OpenChat` | app.py:849-865 | 404 exactly when no record has the timestamp, otherwise the earliest record that has it |
| `App.Clinic.FlagFollowUp` | app.py:819-826 | the first match's follow-up flag is set, nothing else changes |
| `App.Clinic.UnflagFollowUp` | app.py:828-835 | the first match's follow-up flag is cleared, nothing else changes |
| `App.Clinic.UploadAudio` | app.py:553-576 | no file gives 400, then a blank timestamp gives 400, both with no change; otherwise only the first match's audio path is set |
| `App.Clinic.DownloadPdf` | app.py:127-376 | without an `image_path` the answer is 500 and no record changes; otherwise the report is composed from the form and the first match's symptoms, and the report path is stored on the first match only |
| `App.Clinic.PatientDownloadPdf` | app.py:381-412 | a blank timestamp gives 400, no matching record gives 404, and otherwise the answer is 500; the store is never changed |
| `App.Clinic.Login` | app.py:708-731 | the table and the response are those of `Users.Login` |

## Left out

- Web layer: Flask routing, sessions, templates, `redirect`/`url_for` and `send_file`. The session user and the requested role are parameters, and responses are values. `logout` (which clears the session) and `edit_doctor_profile` (which stores a new doctor name in the session) change only session state and then redirect; `index`, `welcome`, `result` and `doctor_dashboard` only render or redirect; `doctor_dashboard` shows the whole list unchanged.
- Doctor session fields: the doctor's display name `"Dr. " + username.title()` relies on Unicode title-casing. Its e-mail and specialization are session display text only.
- The classifier: model loading and inference (`load_model`, `model.predict`, image preprocessing) are a foreign call. The score is an input.
- The confidence in `predict` is a random float between 77 and 97. It is an input (`Drawn(percent)`), and its range is not constrained.
- The clock: `datetime.now()` strings (record timestamps and reply times) are opaque inputs.
- File I/O: image conversion and saving (PIL), audio saving and `upload_image` (which only saves a file). The FPDF drawing is also left out: fonts, borders, coordinates, header rows, the footer and the image page with its "Image not found" and "under Development" cells. Only the row sequence and the summary text are modelled.
- `generate_pdf` and `handle_pdf_request`: `generate_pdf` always raises before writing the report (it may first save converted copies of the image), and `handle_pdf_request` is never routed. `Clinic.PatientDownloadPdf` keeps only the resulting 500 and the prefix of its message, not the exception text.
- Exceptions from I/O or the classifier, which `predict` and `submit_patient_data` turn into a 500 answer, are not modelled: the methods describe the success path.
- App.Clinic.DownloadPdf: models only the missing-`image_path` 500. The failures that depend on the file system or on FPDF are not modelled: an `image_path` naming a missing `.png` file or a directory (the empty path is the working directory), or text FPDF cannot encode. Its 500 message keeps only the prefix "Error generating PDF", not the exception text.
- Concurrency: one request runs at a time, and the model does not capture interleaved requests.
- `models.py` (ORM declarations with no behaviour, not connected to the list store) and `static/js/main.js` (browser UI).
- The Unicode category database: `RemoveInvalidChars` takes the category-Mn test as a function parameter.
