/** What `download_pdf` writes, as data: the parameter/value table, the
    clinical-observation table and the summary paragraph, plus the
    decorative clinical details drawn from fixed catalogs. Fonts, borders,
    coordinates and the image page are not part of this model. */
module Report {
  import opened Optional
  import opened Records
  import opened Text
  import Submission

  /** One two-cell table row. */
  datatype Row = Row(key: string, value: string)

  /** The form fields `download_pdf` uses. (It also reads name, date of birth,
      age, sex and address, and never uses them.) */
  datatype PdfForm = PdfForm(
    prediction: Option<string>,
    confidence: Option<string>,
    imagePath: Option<string>,
    painLevel: Option<string>,
    bleeding: Option<string>,
    swelling: Option<string>,
    duration: Option<string>,
    history: Option<string>,
    timestamp: Option<string>)

  // ---------------------------------------------------------------------
  // generate_clinical_details

  const Locations: seq<string> := [
    "Left lateral border of the tongue",
    "Floor of the mouth",
    "Buccal mucosa (inner cheek)",
    "Soft palate",
    "Lower lip"]
  const Colorations: seq<string> := [
    "White patch (leukoplakia)",
    "Red patch (erythroplakia)",
    "White & red mixed patch (erythroleukoplakia)",
    "Ulcerated red area"]
  const Surfaces: seq<string> := [
    "Irregular, mildly ulcerated",
    "Smooth, elevated",
    "Rough and nodular",
    "Ulcerated with indurated margins"]
  const Sizes: seq<string> := [
    "0.5 x 0.5 cm", "1.0 x 0.8 cm", "1.2 x 1.0 cm", "1.5 x 1.0 cm", "1.8 x 1.2 cm",
    "2.0 x 1.5 cm", "2.2 x 1.7 cm", "2.5 x 2.0 cm", "3.0 x 2.5 cm", "3.5 x 3.0 cm"]
  const Stage: string := "T1"

  /** The outcome of the four `random.choice` calls, as catalog positions. */
  datatype Draw = Draw(location: nat, coloration: nat, surface: nat, size: nat)

  predicate ValidDraw(d: Draw) {
    d.location < |Locations| && d.coloration < |Colorations| && d.surface < |Surfaces| && d.size < |Sizes|
  }

  datatype ClinicalDetails = ClinicalDetails(location: string, coloration: string, surface: string,
                                             size: string, stage: string)

  /** Each field is an entry of its own catalog; the stage is always "T1". */
  predicate FromCatalogs(c: ClinicalDetails) {
    c.location in Locations && c.coloration in Colorations && c.surface in Surfaces
    && c.size in Sizes && c.stage == Stage
  }

  function GenerateClinicalDetails(d: Draw): (c: ClinicalDetails)
    requires ValidDraw(d)
    ensures FromCatalogs(c)
    // never empty, and never the dash the table uses for "no observation"
    ensures |c.location| > 1 && |c.coloration| > 1 && |c.surface| > 1 && |c.size| > 1 && |c.stage| > 1
  {
    ClinicalDetails(Locations[d.location], Colorations[d.coloration], Surfaces[d.surface],
                    Sizes[d.size], Stage)
  }

  /** Every combination of catalog entries is produced by some draw, so the
      catalogs are exactly the possible outputs. */
  lemma EveryCatalogCombinationDrawable(c: ClinicalDetails)
    requires FromCatalogs(c)
    ensures exists d :: ValidDraw(d) && GenerateClinicalDetails(d) == c
  {
    var i :| 0 <= i < |Locations| && Locations[i] == c.location;
    var j :| 0 <= j < |Colorations| && Colorations[j] == c.coloration;
    var k :| 0 <= k < |Surfaces| && Surfaces[k] == c.surface;
    var m :| 0 <= m < |Sizes| && Sizes[m] == c.size;
    assert GenerateClinicalDetails(Draw(i, j, k, m)) == c;
  }

  // ---------------------------------------------------------------------
  // The parameter/value table

  /** The table holds a row with this key and value. */
  predicate Shows(rows: seq<Row>, key: string, value: string) {
    Row(key, value) in rows
  }

  /** The habits recorded for the report: none when no record matched. */
  function HabitsOf(symptoms: Option<Symptoms>): seq<string> {
    if symptoms.Some? then symptoms.value.habits else []
  }

  /** `', '.join(habits) if habits else "None"`. */
  function HabitsText(habits: seq<string>): string {
    if habits == [] then "None" else Join(habits, ", ")
  }

  /** The seven rows taken from the request form, in table order. */
  function FormRows(form: PdfForm): seq<Row> {
    [ Row("Prediction", Show(form.prediction)),
      Row("Confidence", Show(form.confidence) + "%"),
      Row("Pain Level", Show(form.painLevel)),
      Row("Bleeding", Show(form.bleeding)),
      Row("Swelling", Show(form.swelling)),
      Row("Duration", Show(form.duration)),
      Row("History", Show(form.history)) ]
  }

  /** The habits row and the habit-conditional years rows. Alcohol years are
      stored but never shown. */
  function HabitRows(symptoms: Option<Symptoms>): seq<Row> {
    var habits := HabitsOf(symptoms);
    [Row("Habits", HabitsText(habits))]
    + (if "Tobacco" in habits then [Row("Tobacco Years", symptoms.value.tobaccoYears)] else [])
    + (if "Smoking" in habits then [Row("Smoking Years", symptoms.value.smokingYears)] else [])
  }

  /** The last three rows, with their defaults when no record matched. */
  function ExtraRows(symptoms: Option<Symptoms>): seq<Row> {
    [ Row("3 Finger Trismus Test", if symptoms.Some? then symptoms.value.trismusTest else "Not answered"),
      Row("Pain Opening Mouth", if symptoms.Some? then symptoms.value.mouthPain else "Not answered"),
      Row("Extra Details", if symptoms.Some? then symptoms.value.extraDetails else "None") ]
  }

  /** The "Prediction Results" table (without its header row). */
  function ParameterRows(form: PdfForm, symptoms: Option<Symptoms>): (rows: seq<Row>)
    ensures |rows| == 11 + (if "Tobacco" in HabitsOf(symptoms) then 1 else 0)
                         + (if "Smoking" in HabitsOf(symptoms) then 1 else 0)
  {
    FormRows(form) + HabitRows(symptoms) + ExtraRows(symptoms)
  }

  /** The table row by row: the seven form values, the habits row, the years
      rows of the habits present, and the last three stored answers. */
  lemma ParameterRowsLayout(form: PdfForm, symptoms: Option<Symptoms>)
    ensures var rows := ParameterRows(form, symptoms);
            var years := (if "Tobacco" in HabitsOf(symptoms) then [Row("Tobacco Years", symptoms.value.tobaccoYears)] else [])
                         + (if "Smoking" in HabitsOf(symptoms) then [Row("Smoking Years", symptoms.value.smokingYears)] else []);
            // the seven form rows first, each `str()` of the form value
            && rows[0] == Row("Prediction", Show(form.prediction))
            && rows[1] == Row("Confidence", Show(form.confidence) + "%")
            && rows[2] == Row("Pain Level", Show(form.painLevel))
            && rows[3] == Row("Bleeding", Show(form.bleeding))
            && rows[4] == Row("Swelling", Show(form.swelling))
            && rows[5] == Row("Duration", Show(form.duration))
            && rows[6] == Row("History", Show(form.history))
            // then the habits row and the years rows of the habits present, Tobacco first
            && rows[7] == Row("Habits", HabitsText(HabitsOf(symptoms)))
            && rows[8..|rows| - 3] == years
            // and the last three: the stored answers, or their defaults without a record
            && rows[|rows| - 3..] ==
                 [ Row("3 Finger Trismus Test", if symptoms.Some? then symptoms.value.trismusTest else "Not answered"),
                   Row("Pain Opening Mouth", if symptoms.Some? then symptoms.value.mouthPain else "Not answered"),
                   Row("Extra Details", if symptoms.Some? then symptoms.value.extraDetails else "None") ]
  {
  }

  /** What the table shows about habits: the joined list or "None"; a
      "Tobacco Years" row exactly when "Tobacco" is a habit and a "Smoking
      Years" row exactly when "Smoking" is, each with the stored years; and
      never an "Alcohol Years" row. */
  lemma HabitRowsShown(form: PdfForm, symptoms: Option<Symptoms>, v: string)
    ensures var rows := ParameterRows(form, symptoms);
            var habits := HabitsOf(symptoms);
            && (Shows(rows, "Habits", v) <==> v == HabitsText(habits))
            && (Shows(rows, "Tobacco Years", v) <==>
                  "Tobacco" in habits && v == symptoms.value.tobaccoYears)
            && (Shows(rows, "Smoking Years", v) <==>
                  "Smoking" in habits && v == symptoms.value.smokingYears)
            && !Shows(rows, "Alcohol Years", v)
  {
    var f, h, e := FormRows(form), HabitRows(symptoms), ExtraRows(symptoms);
    assert forall key :: key in {"Habits", "Tobacco Years", "Smoking Years", "Alcohol Years"} ==>
             Row(key, v) !in f && Row(key, v) !in e;
  }

  /** When no record has the timestamp, the table shows no habits and the
      defaults for the last three rows. */
  lemma NoRecordDefaults(form: PdfForm)
    ensures var rows := ParameterRows(form, None);
            && |rows| == 11
            && rows[7] == Row("Habits", "None")
            && rows[8..] == [ Row("3 Finger Trismus Test", "Not answered"),
                              Row("Pain Opening Mouth", "Not answered"),
                              Row("Extra Details", "None") ]
  {
  }

  // ---------------------------------------------------------------------
  // The clinical-observation table

  const ClinicalKeys: seq<string> :=
    ["Location", "Coloration", "Surface", "Approximate Size", "Suggested Stage"]

  /** The five observation rows: drawn details for a cancer-risk prediction,
      dashes otherwise. */
  function ClinicalRows(prediction: Option<string>, d: Draw): (rows: seq<Row>)
    requires ValidDraw(d)
    ensures |rows| == 5
    ensures forall i :: 0 <= i < 5 ==> rows[i].key == ClinicalKeys[i]
    ensures (forall i :: 0 <= i < 5 ==> rows[i].value == "-") <==> prediction != Some(Submission.RiskCancer)
    ensures prediction == Some(Submission.RiskCancer) ==>
              FromCatalogs(ClinicalDetails(rows[0].value, rows[1].value, rows[2].value, rows[3].value, rows[4].value))
  {
    if prediction == Some(Submission.RiskCancer) then
      var c := GenerateClinicalDetails(d);
      var rows := [ Row("Location", c.location), Row("Coloration", c.coloration), Row("Surface", c.surface),
                    Row("Approximate Size", c.size), Row("Suggested Stage", c.stage) ];
      assert rows[0].value != "-";
      rows
    else
      [ Row("Location", "-"), Row("Coloration", "-"), Row("Surface", "-"),
        Row("Approximate Size", "-"), Row("Suggested Stage", "-") ]
  }

  // ---------------------------------------------------------------------
  // The summary paragraph

  const SummaryOpening: string := "Based on the uploaded image and provided symptoms, the system predicts a "
  const HighRiskTag: string := "HIGH RISK of oral cancer. "
  const LowRiskRest: string :=
    "LOW RISK of oral cancer. "
    + "No alarming features were detected in the clinical observation. "
    + "Continue regular monitoring and consult a healthcare provider if symptoms persist or worsen."

  const HighRiskOpening: string := SummaryOpening + HighRiskTag
  const LowRiskSummary: string := SummaryOpening + LowRiskRest

  /** The rest of the high-risk paragraph, naming the drawn details. */
  function HighRiskDetails(c: ClinicalDetails): string {
    "Clinical observation suggests the lesion is located at " + c.location
    + ", with a surface described as " + c.surface
    + " and coloration as " + c.coloration
    + ". The approximate size is " + c.size
    + ", and the suggested stage is " + c.stage + ". "
    + "It is strongly recommended to consult a specialist for further evaluation and management."
  }

  function HighRiskSummary(c: ClinicalDetails): string {
    HighRiskOpening + HighRiskDetails(c)
  }

  /** Two texts that share an opening and then differ in their next character
      do not extend one another. */
  lemma DivergeAfterCommon(p: string, a: string, b: string, tail: string)
    requires |a| > 0 && |b| > 0 && a[0] != b[0]
    ensures !(p + a <= p + b + tail)
  {
    assert (p + a)[|p|] == a[0];
    assert (p + b + tail)[|p|] == b[0];
  }

  /** The summary opens with "HIGH RISK" exactly for a cancer-risk prediction,
      and the low-risk text does not depend on the draw. */
  function Summary(prediction: Option<string>, d: Draw): (text: string)
    requires ValidDraw(d)
    ensures HighRiskOpening <= text <==> prediction == Some(Submission.RiskCancer)
    ensures prediction != Some(Submission.RiskCancer) ==> text == LowRiskSummary
  {
    if prediction == Some(Submission.RiskCancer) then
      var rest := HighRiskDetails(GenerateClinicalDetails(d));
      assert (HighRiskOpening + rest)[..|HighRiskOpening|] == HighRiskOpening;
      HighRiskOpening + rest
    else
      assert HighRiskTag[0] == 'H' && LowRiskRest[0] == 'L';
      DivergeAfterCommon(SummaryOpening, HighRiskTag, LowRiskRest, "");
      assert SummaryOpening + LowRiskRest + "" == LowRiskSummary;
      LowRiskSummary
  }

  // ---------------------------------------------------------------------
  // The whole report

  datatype PdfReport = PdfReport(parameters: seq<Row>, clinical: seq<Row>, summary: string, path: string)

  /** `os.path.join('static', f"report_{timestamp}.pdf")`. */
  function ReportPath(timestamp: Option<string>): string {
    "static/report_" + Show(timestamp) + ".pdf"
  }

  /** The report for a request, given the symptoms of the first record with
      its timestamp (None when there is none) and the random draw. */
  function ComposeReport(form: PdfForm, symptoms: Option<Symptoms>, d: Draw): (r: PdfReport)
    requires ValidDraw(d)
    ensures r.parameters == ParameterRows(form, symptoms)
    ensures |r.clinical| == 5
    ensures r.clinical == ClinicalRows(form.prediction, d) && r.summary == Summary(form.prediction, d)
    ensures r.path == ReportPath(form.timestamp)
  {
    PdfReport(ParameterRows(form, symptoms), ClinicalRows(form.prediction, d),
              Summary(form.prediction, d), ReportPath(form.timestamp))
  }

  /** For a cancer-risk prediction the summary repeats the details shown in
      the observation table (one draw feeds both). */
  lemma SummaryMatchesTable(form: PdfForm, symptoms: Option<Symptoms>, d: Draw)
    requires ValidDraw(d) && form.prediction == Some(Submission.RiskCancer)
    ensures var r := ComposeReport(form, symptoms, d);
            r.summary == HighRiskSummary(ClinicalDetails(r.clinical[0].value, r.clinical[1].value,
                                                         r.clinical[2].value, r.clinical[3].value,
                                                         r.clinical[4].value))
  {
  }

  /** Outside a cancer-risk prediction the randomness has no effect. */
  lemma LowRiskReportIgnoresDraw(form: PdfForm, symptoms: Option<Symptoms>, d1: Draw, d2: Draw)
    requires ValidDraw(d1) && ValidDraw(d2) && form.prediction != Some(Submission.RiskCancer)
    ensures ComposeReport(form, symptoms, d1) == ComposeReport(form, symptoms, d2)
  {
  }

  /** A record with habits [Tobacco] and 5 tobacco years gives a
      "Tobacco Years: 5" row and no "Smoking Years" row. */
  lemma TobaccoScenario(form: PdfForm, s: Symptoms, d: Draw, v: string)
    requires ValidDraw(d) && s.habits == ["Tobacco"] && s.tobaccoYears == "5"
    ensures var rows := ComposeReport(form, Some(s), d).parameters;
            && Shows(rows, "Tobacco Years", "5")
            && !Shows(rows, "Smoking Years", v)
            && Shows(rows, "Habits", "Tobacco")
  {
    HabitRowsShown(form, Some(s), "5");
    HabitRowsShown(form, Some(s), v);
    HabitRowsShown(form, Some(s), "Tobacco");
  }
}
