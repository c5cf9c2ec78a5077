/**
 * The patient detail page (client/pages/PatientDetail.tsx): the page's list of
 * diagnoses with its add and delete handlers, the client-side FHIR export,
 * the "Last updated" value and the newest-first diagnosis history.
 *
 * The history sorts by `new Date(recordedDate)`; on the well-formed
 * `YYYY-MM-DD` dates the page holds, that order is the lexicographic order of
 * the date strings, which is what the model sorts by.
 */
module PatientDetail {

  import opened Text
  import opened Seqs
  import opened Fhir

  datatype Diagnosis = Diagnosis(
    id: string,
    namasteCode: string,
    namasteDescription: string,
    icd11Code: string,
    icd11Description: string,
    recordedDate: string,
    notes: Option<string>)

  datatype DetailPatient = DetailPatient(
    id: string,
    firstName: string,
    lastName: string,
    dateOfBirth: Option<string>,
    gender: Option<string>,
    diagnoses: seq<Diagnosis>,
    createdAt: string)

  /** The add-diagnosis form's three inputs. */
  datatype DiagnosisForm = DiagnosisForm(namasteCode: string, icd11Code: string, notes: string)

  const EmptyForm: DiagnosisForm := DiagnosisForm("", "", "")

  /** A `YYYY-MM-DD` date. */
  predicate WellFormedDate(s: string)
  {
    && |s| == 10 && s[4] == '-' && s[7] == '-'
    && AllDigits(s[..4]) && AllDigits(s[5..7]) && AllDigits(s[8..])
  }

  predicate DatesWellFormed(ds: seq<Diagnosis>)
  {
    forall i :: 0 <= i < |ds| ==> WellFormedDate(ds[i].recordedDate)
  }

  /** The diagnosis `handleAddDiagnosis` builds from the form. */
  function NewDiagnosis(form: DiagnosisForm, now: nat, today: string): Diagnosis
  {
    Diagnosis("D" + DecimalString(now), form.namasteCode, "Diagnosis", form.icd11Code, "ICD-11 Code",
              today, Some(form.notes))
  }

  class DetailPage {
    const patient: DetailPatient
    var diagnoses: seq<Diagnosis>
    var form: DiagnosisForm
    var showForm: bool

    /** Every recorded date is a `YYYY-MM-DD` date, so sorting by date is meaningful. */
    ghost predicate Valid()
      reads this
    {
      DatesWellFormed(diagnoses)
    }

    /** The page opens on the patient's stored diagnoses, with an empty, hidden form. */
    constructor (patient: DetailPatient)
      requires DatesWellFormed(patient.diagnoses)
      ensures Valid()
      ensures this.patient == patient && diagnoses == patient.diagnoses
      ensures form == EmptyForm && !showForm
    {
      this.patient := patient;
      diagnoses := patient.diagnoses;
      form := EmptyForm;
      showForm := false;
    }

    /** Typing into the form. */
    method EditForm(f: DiagnosisForm)
      modifies this
      ensures form == f
      ensures diagnoses == old(diagnoses) && showForm == old(showForm)
    {
      form := f;
    }

    /** The header button ("Add Diagnosis", or "Cancel" while the form is open) shows or hides the form. */
    method ToggleForm()
      modifies this
      ensures showForm == !old(showForm)
      ensures diagnoses == old(diagnoses) && form == old(form)
    {
      showForm := !showForm;
    }

    /** The form's Cancel button hides it; what was typed stays in the form. */
    method HideForm()
      modifies this
      ensures !showForm
      ensures diagnoses == old(diagnoses) && form == old(form)
    {
      showForm := false;
    }

    /** "Add First Diagnosis", offered only while there is no diagnosis, shows the form. */
    method OpenFirstForm()
      requires diagnoses == []
      modifies this
      ensures showForm
      ensures diagnoses == old(diagnoses) && form == old(form)
    {
      showForm := true;
    }

    /**
     * `handleAddDiagnosis`: nothing happens while either code field is empty;
     * otherwise one diagnosis dated `nowIso`'s date is appended, the form is
     * reset and hidden.
     */
    method AddDiagnosis(now: nat, nowIso: string)
      requires Valid()
      requires WellFormedDate(DatePart(nowIso))
      modifies this
      ensures Valid()
      ensures old(form.namasteCode) == "" || old(form.icd11Code) == "" ==>
                diagnoses == old(diagnoses) && form == old(form) && showForm == old(showForm)
      ensures old(form.namasteCode) != "" && old(form.icd11Code) != "" ==>
                && diagnoses == old(diagnoses) + [NewDiagnosis(old(form), now, DatePart(nowIso))]
                && form == EmptyForm && !showForm
    {
      if form.namasteCode == "" || form.icd11Code == "" {
        return;
      }
      diagnoses := diagnoses + [NewDiagnosis(form, now, DatePart(nowIso))];
      form := EmptyForm;
      showForm := false;
    }

    /** `handleDeleteDiagnosis`: keeps every diagnosis whose id differs, in order. */
    method DeleteDiagnosis(id: string)
      requires Valid()
      modifies this
      ensures Valid()
      ensures diagnoses == Filter((d: Diagnosis) => d.id != id, old(diagnoses))
      ensures form == old(form) && showForm == old(showForm)
    {
      var kept := Filter((d: Diagnosis) => d.id != id, diagnoses);
      forall i | 0 <= i < |kept|
        ensures WellFormedDate(kept[i].recordedDate)
      {
        assert kept[i] in diagnoses;
      }
      diagnoses := kept;
    }
  }

  /** An appended diagnosis has the entered codes and notes, and the others stay as they were. */
  lemma AddedDiagnosisCarriesForm(ds: seq<Diagnosis>, form: DiagnosisForm, now: nat, today: string)
    ensures var r := ds + [NewDiagnosis(form, now, today)];
            && |r| == |ds| + 1 && r[..|ds|] == ds
            && r[|ds|].namasteCode == form.namasteCode && r[|ds|].icd11Code == form.icd11Code
            && r[|ds|].notes == Some(form.notes) && r[|ds|].recordedDate == today
  {
    var r := ds + [NewDiagnosis(form, now, today)];
    assert r[..|ds|] == ds;
  }

  /** Deleting removes exactly the diagnoses with that id. */
  lemma DeleteRemovesExactly(ds: seq<Diagnosis>, id: string, d: Diagnosis)
    ensures d in Filter((x: Diagnosis) => x.id != id, ds) <==> d in ds && d.id != id
  {
    FilterMembership((x: Diagnosis) => x.id != id, ds, d);
  }

  // ------------------------------------------------------------ FHIR export

  /** The `Condition` exported for one diagnosis of the patient `patientId`. */
  function ConditionOf(patientId: string, d: Diagnosis): ConditionResource
  {
    ConditionResource(
      d.id,
      [Coding(IcdMmsSystem, d.icd11Code, d.icd11Description)],
      PatientReference(patientId),
      d.recordedDate,
      if d.notes.Some? && d.notes.value != "" then Some([Annotation(d.notes.value)]) else None)
  }

  /**
   * `exportFHIR`'s bundle: the patient first, then one Condition per diagnosis
   * in list order.
   */
  function ExportBundle(p: DetailPatient, ds: seq<Diagnosis>, timestamp: string): (b: Bundle)
    ensures b.bundleType == DocumentType && b.timestamp == timestamp
    ensures |b.entry| == |ds| + 1
    ensures b.entry[0].PatientEntry?
    ensures b.entry[0].patient.id == p.id
    ensures b.entry[0].patient.name == [HumanName("official", [p.firstName], p.lastName)]
    ensures b.entry[0].patient.birthDate == p.dateOfBirth && b.entry[0].patient.gender == p.gender
    ensures forall i :: 0 <= i < |ds| ==>
              && b.entry[i + 1].ConditionEntry?
              && b.entry[i + 1].condition.id == ds[i].id
              && b.entry[i + 1].condition.coding == [Coding(IcdMmsSystem, ds[i].icd11Code, ds[i].icd11Description)]
              && b.entry[i + 1].condition.subjectReference == "Patient/" + p.id
              && b.entry[i + 1].condition.recordedDate == ds[i].recordedDate
  {
    var patient := PatientResource(p.id, OfficialName(p.firstName, p.lastName), p.dateOfBirth, p.gender, None);
    Bundle(DocumentType, timestamp,
           [PatientEntry(patient)] + seq(|ds|, i requires 0 <= i < |ds| => ConditionEntry(ConditionOf(p.id, ds[i]))))
  }

  /** A Condition carries a note exactly when the diagnosis has non-empty notes, and the note is those notes. */
  lemma ExportNoteIffNotes(p: DetailPatient, ds: seq<Diagnosis>, timestamp: string, i: nat)
    requires i < |ds|
    ensures var c := ExportBundle(p, ds, timestamp).entry[i + 1].condition;
            && (c.note.Some? <==> ds[i].notes.Some? && ds[i].notes.value != "")
            && (c.note.Some? ==> c.note.value == [Annotation(ds[i].notes.value)])
  {
  }

  /** Every Condition refers back to the exported Patient entry. */
  lemma ExportConditionsReferToPatient(p: DetailPatient, ds: seq<Diagnosis>, timestamp: string, i: nat)
    requires 0 < i < |ExportBundle(p, ds, timestamp).entry|
    ensures var b := ExportBundle(p, ds, timestamp);
            b.entry[i].ConditionEntry? && b.entry[i].condition.subjectReference == PatientReference(b.entry[0].patient.id)
  {
  }

  // ----------------------------------------------------------- last updated

  /**
   * "Last updated": the date of the diagnosis at the end of the list (the one
   * added last), or the patient's creation date when there is none; it is
   * always one of those dates.
   */
  function LastUpdated(p: DetailPatient, ds: seq<Diagnosis>): (r: string)
    ensures ds == [] ==> r == p.createdAt
    ensures ds != [] ==> r == ds[|ds| - 1].recordedDate
    ensures r == p.createdAt || exists i :: 0 <= i < |ds| && r == ds[i].recordedDate
  {
    if |ds| > 0 then ds[|ds| - 1].recordedDate else p.createdAt
  }

  /** After an add, "Last updated" is the date of the new diagnosis. */
  lemma LastUpdatedAfterAdd(p: DetailPatient, ds: seq<Diagnosis>, form: DiagnosisForm, now: nat, today: string)
    ensures LastUpdated(p, ds + [NewDiagnosis(form, now, today)]) == today
  {
  }

  /** With diagnoses on the page, "Last updated" is one of their dates, so a well-formed date. */
  lemma LastUpdatedIsARecordedDate(p: DetailPatient, ds: seq<Diagnosis>)
    requires |ds| > 0
    ensures exists i :: 0 <= i < |ds| && LastUpdated(p, ds) == ds[i].recordedDate
    ensures DatesWellFormed(ds) ==> WellFormedDate(LastUpdated(p, ds))
  {
    assert LastUpdated(p, ds) == ds[|ds| - 1].recordedDate;
  }

  // ---------------------------------------------------------------- history

  /** Each diagnosis is dated no later than the one before it. */
  predicate NewestFirst(s: seq<Diagnosis>)
  {
    forall i :: 0 < i < |s| ==> LexLe(s[i].recordedDate, s[i - 1].recordedDate)
  }

  /** Insertion of `d` ahead of the first entry dated no later than it. */
  function InsertNewest(d: Diagnosis, s: seq<Diagnosis>): (r: seq<Diagnosis>)
    requires NewestFirst(s)
    ensures NewestFirst(r)
    ensures multiset(r) == multiset(s) + multiset{d}
    ensures |r| == |s| + 1
    ensures r[0] == d || (|s| > 0 && r[0] == s[0])
    decreases |s|
  {
    if s == [] then [d]
    else if LexLe(s[0].recordedDate, d.recordedDate) then [d] + s
    else
      LexLeTotal(s[0].recordedDate, d.recordedDate);
      assert s == [s[0]] + s[1..];
      [s[0]] + InsertNewest(d, s[1..])
  }

  /**
   * `[...diagnoses].sort((a, b) => date(b) - date(a))`: a stable sort of a
   * copy, newest first; the page's own list keeps its order.
   */
  function History(ds: seq<Diagnosis>): (r: seq<Diagnosis>)
    ensures NewestFirst(r)
    ensures multiset(r) == multiset(ds)
    ensures |r| == |ds|
    decreases |ds|
  {
    if ds == [] then []
    else
      assert ds == [ds[0]] + ds[1..];
      InsertNewest(ds[0], History(ds[1..]))
  }

  /** Newest-first holds between any two entries, not just neighbours. */
  lemma {:induction false} NewestFirstPairwise(s: seq<Diagnosis>, i: nat, j: nat)
    requires NewestFirst(s)
    requires i <= j < |s|
    ensures LexLe(s[j].recordedDate, s[i].recordedDate)
    decreases j - i
  {
    if i == j {
      LexLeTotal(s[i].recordedDate, s[i].recordedDate);
    } else {
      NewestFirstPairwise(s, i, j - 1);
      LexLeTransitive(s[j].recordedDate, s[j - 1].recordedDate, s[i].recordedDate);
    }
  }

  /** The history shows exactly the page's diagnoses. */
  lemma HistoryHasSameEntries(ds: seq<Diagnosis>, d: Diagnosis)
    ensures d in History(ds) <==> d in ds
  {
    assert d in History(ds) <==> d in multiset(History(ds));
  }

  /** A history row: its number and the diagnosis. */
  datatype HistoryRow = HistoryRow(number: nat, diagnosis: Diagnosis)

  /** The rendered history: row `idx` is numbered `diagnoses.length - idx`. */
  function HistoryRows(ds: seq<Diagnosis>): (r: seq<HistoryRow>)
    ensures |r| == |ds|
    ensures forall i :: 0 <= i < |r| ==> r[i].diagnosis == History(ds)[i]
  {
    var h := History(ds);
    seq(|h|, i requires 0 <= i < |h| => HistoryRow(|ds| - i, h[i]))
  }

  /** The rows are numbered n down to 1: strictly decreasing, first n, last 1. */
  lemma HistoryNumbering(ds: seq<Diagnosis>)
    requires |ds| > 0
    ensures var r := HistoryRows(ds);
            && r[0].number == |ds| && r[|r| - 1].number == 1
            && forall i, j :: 0 <= i < j < |r| ==> r[j].number < r[i].number
  {
  }
}
