/**
 * The patients page (client/pages/Patients.tsx): the page's patient list
 * with its create and delete handlers, the name search, the three vital-sign
 * chart series and the summary statistics.
 */
module PatientList {

  import opened Text
  import opened Seqs

  datatype Gender = Male | Female | Other

  /** A vital-signs reading; the temperature is a real number. */
  datatype HealthUpdate = HealthUpdate(date: string, bloodPressure: string, heartRate: int, temperature: real,
                                       notes: Option<string>)

  datatype ListPatient = ListPatient(
    id: string,
    firstName: string,
    lastName: string,
    dateOfBirth: Option<string>,
    gender: Option<Gender>,
    diagnosisCount: nat,
    createdAt: string,
    healthUpdates: Option<seq<HealthUpdate>>)

  datatype PatientForm = PatientForm(firstName: string, lastName: string, dateOfBirth: string, gender: Gender)

  const EmptyPatientForm: PatientForm := PatientForm("", "", "", Male)

  /** The patient `handleCreatePatient` builds from the form. */
  function NewListPatient(form: PatientForm, now: nat, nowIso: string): ListPatient
  {
    ListPatient("P" + DecimalString(now), form.firstName, form.lastName, Some(form.dateOfBirth), Some(form.gender),
                0, DatePart(nowIso), Some([]))
  }

  // -------------------------------------------------------------- search

  /** Either name contains the query, both lower-cased. */
  predicate NameMatches(query: string, p: ListPatient)
  {
    Contains(Lower(p.firstName), Lower(query)) || Contains(Lower(p.lastName), Lower(query))
  }

  /** `filteredPatients`. */
  function Filtered(ps: seq<ListPatient>, query: string): (r: seq<ListPatient>)
    ensures |r| <= |ps|
    ensures forall p :: p in r ==> p in ps && NameMatches(query, p)
    ensures |r| == |ps| <==> forall i :: 0 <= i < |ps| ==> NameMatches(query, ps[i])
  {
    FilterEmptiness((p: ListPatient) => NameMatches(query, p), ps);
    Filter((p: ListPatient) => NameMatches(query, p), ps)
  }

  /** A patient is listed exactly when it is on the page and a name contains the query, ignoring case. */
  lemma FilteredMembership(ps: seq<ListPatient>, query: string, p: ListPatient)
    ensures p in Filtered(ps, query) <==>
              p in ps && (Contains(Lower(p.firstName), Lower(query)) || Contains(Lower(p.lastName), Lower(query)))
  {
    FilterMembership((x: ListPatient) => NameMatches(query, x), ps, p);
  }

  /** The search keeps page order: searching a concatenation searches each part. */
  lemma FilteredKeepsOrder(ps: seq<ListPatient>, more: seq<ListPatient>, query: string)
    ensures Filtered(ps + more, query) == Filtered(ps, query) + Filtered(more, query)
  {
    FilterAppend((x: ListPatient) => NameMatches(query, x), ps, more);
  }

  /** An empty search box lists every patient. */
  lemma EmptyQueryKeepsAll(ps: seq<ListPatient>)
    ensures Filtered(ps, "") == ps
  {
    forall i | 0 <= i < |ps|
      ensures NameMatches("", ps[i])
    {
      EmptyIsContained(Lower(ps[i].firstName));
    }
    FilterKeepsAll((x: ListPatient) => NameMatches("", x), ps);
  }

  /** The search ignores the case of the query. */
  lemma QueryCaseIgnored(ps: seq<ListPatient>, query: string)
    ensures Filtered(ps, Lower(query)) == Filtered(ps, query)
  {
    LowerIdempotent(query);
    FilterExtensional((x: ListPatient) => NameMatches(Lower(query), x),
                      (x: ListPatient) => NameMatches(query, x), ps);
  }

  // ---------------------------------------------------------------- page

  class PatientsPage {
    var patients: seq<ListPatient>
    var form: PatientForm
    var showForm: bool
    var searchQuery: string

    constructor (initial: seq<ListPatient>)
      ensures patients == initial && form == EmptyPatientForm && !showForm && searchQuery == ""
    {
      patients := initial;
      form := EmptyPatientForm;
      showForm := false;
      searchQuery := "";
    }

    method EditForm(f: PatientForm)
      modifies this
      ensures form == f && patients == old(patients) && searchQuery == old(searchQuery)
      ensures showForm == old(showForm)
    {
      form := f;
    }

    method Search(query: string)
      modifies this
      ensures searchQuery == query && patients == old(patients) && form == old(form)
      ensures showForm == old(showForm)
    {
      searchQuery := query;
    }

    /** The rows on screen. */
    function Shown(): seq<ListPatient>
      reads this
    {
      Filtered(patients, searchQuery)
    }

    /** The header button ("Create Patient", or "Cancel" while the form is open) shows or hides the form. */
    method ToggleForm()
      modifies this
      ensures showForm == !old(showForm)
      ensures patients == old(patients) && form == old(form) && searchQuery == old(searchQuery)
    {
      showForm := !showForm;
    }

    /** The form's Cancel button hides it; what was typed stays in the form. */
    method HideForm()
      modifies this
      ensures !showForm
      ensures patients == old(patients) && form == old(form) && searchQuery == old(searchQuery)
    {
      showForm := false;
    }

    /**
     * "Create First Patient", offered only when no patient is listed and the
     * search box is empty, shows the form.
     */
    method OpenFirstForm()
      requires Shown() == [] && searchQuery == ""
      modifies this
      ensures showForm
      ensures patients == old(patients) && form == old(form) && searchQuery == old(searchQuery)
    {
      showForm := true;
    }

    /**
     * `handleCreatePatient`: nothing happens while the first or last name is
     * empty; otherwise one patient with no diagnoses and no health updates is
     * appended and the form is reset and hidden.
     */
    method CreatePatient(now: nat, nowIso: string)
      modifies this
      ensures searchQuery == old(searchQuery)
      ensures old(form.firstName) == "" || old(form.lastName) == "" ==>
                patients == old(patients) && form == old(form) && showForm == old(showForm)
      ensures old(form.firstName) != "" && old(form.lastName) != "" ==>
                && patients == old(patients) + [NewListPatient(old(form), now, nowIso)]
                && form == EmptyPatientForm && !showForm
    {
      if form.firstName == "" || form.lastName == "" {
        return;
      }
      patients := patients + [NewListPatient(form, now, nowIso)];
      form := EmptyPatientForm;
      showForm := false;
    }

    /** `handleDeletePatient`: keeps every patient whose id differs, in order. */
    method DeletePatient(id: string)
      modifies this
      ensures patients == Filter((p: ListPatient) => p.id != id, old(patients))
      ensures form == old(form) && showForm == old(showForm) && searchQuery == old(searchQuery)
    {
      patients := Filter((p: ListPatient) => p.id != id, patients);
    }
  }

  /** A created patient carries the entered names, no diagnoses and an empty update list. */
  lemma CreatedPatientIsBlank(form: PatientForm, now: nat, nowIso: string)
    ensures var p := NewListPatient(form, now, nowIso);
            && p.firstName == form.firstName && p.lastName == form.lastName
            && p.diagnosisCount == 0 && p.healthUpdates == Some([])
            && StartsWith(p.id, "P")
  {
  }

  /** Deleting removes exactly the patients with that id. */
  lemma DeleteRemovesExactly(ps: seq<ListPatient>, id: string, p: ListPatient)
    ensures p in Filter((x: ListPatient) => x.id != id, ps) <==> p in ps && p.id != id
  {
    FilterMembership((x: ListPatient) => x.id != id, ps, p);
  }

  // ------------------------------------------------------------- charts

  datatype HeartRatePoint = HeartRatePoint(date: string, heartRate: int)

  datatype TemperaturePoint = TemperaturePoint(date: string, temperature: real)

  datatype PressurePoint = PressurePoint(date: string, systolic: NumValue)

  /** `updates = []`: an absent list counts as empty. */
  function UpdatesOf(updates: Option<seq<HealthUpdate>>): seq<HealthUpdate>
  {
    if updates.Some? then updates.value else []
  }

  /** `date.slice(-5)`: the last five characters, or the whole date when it is shorter. */
  function ChartLabel(date: string): (r: string)
    ensures |r| == if |date| < 5 then |date| else 5
    ensures r == date[|date| - |r|..]
  {
    SliceFromEnd(date, 5)
  }

  /** On a `YYYY-MM-DD` date the label is `MM-DD`. */
  lemma ChartLabelOfDate(date: string)
    requires |date| == 10
    ensures ChartLabel(date) == date[5..]
  {
  }

  /**
   * `bloodPressure.split("/").map(Number)[0]`: the number written before the
   * first `/`, or the whole reading read as a number when it has no `/`.
   */
  function Systolic(bloodPressure: string): (r: NumValue)
    ensures '/' !in bloodPressure ==> r == ToNumber(bloodPressure)
    ensures forall i :: 0 <= i < |bloodPressure| && bloodPressure[i] == '/' && '/' !in bloodPressure[..i] ==>
              r == ToNumber(bloodPressure[..i])
  {
    SplitFirstField(bloodPressure, '/');
    ToNumber(Split(bloodPressure, '/')[0])
  }

  /** The systolic value of `"<n>/<rest>"` is `n`. */
  lemma SystolicOfReading(n: nat, rest: string)
    ensures Systolic(DecimalString(n) + "/" + rest) == Finite(n)
  {
    var digits := DecimalString(n);
    assert forall k :: 0 <= k < |digits| ==> digits[k] != '/';
    assert '/' !in digits;
    SplitHead(DecimalString(n), '/', rest);
    assert DecimalString(n) + "/" + rest == DecimalString(n) + ['/'] + rest;
    NumberOfDecimal(n);
  }

  function HeartRateSeries(updates: Option<seq<HealthUpdate>>): (r: seq<HeartRatePoint>)
    ensures |r| == |UpdatesOf(updates)|
    ensures forall i :: 0 <= i < |r| ==>
              r[i] == HeartRatePoint(ChartLabel(UpdatesOf(updates)[i].date), UpdatesOf(updates)[i].heartRate)
  {
    var us := UpdatesOf(updates);
    seq(|us|, i requires 0 <= i < |us| => HeartRatePoint(ChartLabel(us[i].date), us[i].heartRate))
  }

  function TemperatureSeries(updates: Option<seq<HealthUpdate>>): (r: seq<TemperaturePoint>)
    ensures |r| == |UpdatesOf(updates)|
    ensures forall i :: 0 <= i < |r| ==>
              r[i] == TemperaturePoint(ChartLabel(UpdatesOf(updates)[i].date), UpdatesOf(updates)[i].temperature)
  {
    var us := UpdatesOf(updates);
    seq(|us|, i requires 0 <= i < |us| => TemperaturePoint(ChartLabel(us[i].date), us[i].temperature))
  }

  function PressureSeries(updates: Option<seq<HealthUpdate>>): (r: seq<PressurePoint>)
    ensures |r| == |UpdatesOf(updates)|
    ensures forall i :: 0 <= i < |r| ==>
              r[i] == PressurePoint(ChartLabel(UpdatesOf(updates)[i].date), Systolic(UpdatesOf(updates)[i].bloodPressure))
  {
    var us := UpdatesOf(updates);
    seq(|us|, i requires 0 <= i < |us| => PressurePoint(ChartLabel(us[i].date), Systolic(us[i].bloodPressure)))
  }

  /** The three charts plot the same dates, one point per update, in update order. */
  lemma SeriesShareLabels(updates: Option<seq<HealthUpdate>>, i: nat)
    requires i < |UpdatesOf(updates)|
    ensures HeartRateSeries(updates)[i].date == TemperatureSeries(updates)[i].date
                                              == PressureSeries(updates)[i].date
                                              == ChartLabel(UpdatesOf(updates)[i].date)
  {
  }

  /** A patient created on the page has empty charts. */
  lemma NewPatientHasEmptyCharts(form: PatientForm, now: nat, nowIso: string)
    ensures HeartRateSeries(NewListPatient(form, now, nowIso).healthUpdates) == []
    ensures PressureSeries(NewListPatient(form, now, nowIso).healthUpdates) == []
  {
  }

  // -------------------------------------------------------------- stats

  /**
   * "Total diagnoses": the sum of the patients' diagnosis counts. It is at
   * least every single count and is zero exactly when every count is.
   */
  function TotalDiagnoses(ps: seq<ListPatient>): (r: nat)
    ensures forall i :: 0 <= i < |ps| ==> ps[i].diagnosisCount <= r
    ensures r == 0 <==> forall i :: 0 <= i < |ps| ==> ps[i].diagnosisCount == 0
  {
    if ps == [] then 0 else ps[0].diagnosisCount + TotalDiagnoses(ps[1..])
  }

  lemma {:induction false} TotalDiagnosesAppend(ps: seq<ListPatient>, more: seq<ListPatient>)
    ensures TotalDiagnoses(ps + more) == TotalDiagnoses(ps) + TotalDiagnoses(more)
    decreases |ps|
  {
    if ps == [] {
      assert ps + more == more;
    } else {
      TotalDiagnosesAppend(ps[1..], more);
      assert (ps + more)[1..] == ps[1..] + more;
    }
  }

  /** Creating a patient leaves the total unchanged, since the new patient has none. */
  lemma CreateKeepsTotalDiagnoses(ps: seq<ListPatient>, form: PatientForm, now: nat, nowIso: string)
    ensures TotalDiagnoses(ps + [NewListPatient(form, now, nowIso)]) == TotalDiagnoses(ps)
  {
    TotalDiagnosesAppend(ps, [NewListPatient(form, now, nowIso)]);
  }

  /** Deleting never raises the total. */
  lemma {:induction false} DeleteLowersTotalDiagnoses(ps: seq<ListPatient>, id: string)
    ensures TotalDiagnoses(Filter((x: ListPatient) => x.id != id, ps)) <= TotalDiagnoses(ps)
    decreases |ps|
  {
    if ps != [] {
      DeleteLowersTotalDiagnoses(ps[1..], id);
    }
  }

  /** The `YYYY-MM` of the current date. */
  function CurrentMonth(nowIso: string): string
  {
    Take(DatePart(nowIso), 7)
  }

  /** "This month": patients whose creation date starts with the current `YYYY-MM`. */
  function ThisMonth(ps: seq<ListPatient>, nowIso: string): (r: nat)
    ensures r <= |ps|
    ensures r == 0 <==> forall i :: 0 <= i < |ps| ==> !StartsWith(ps[i].createdAt, CurrentMonth(nowIso))
  {
    Count((p: ListPatient) => StartsWith(p.createdAt, CurrentMonth(nowIso)), ps)
  }

  /** A patient created now is counted in "This month", so the figure goes up by one. */
  lemma CreateCountsThisMonth(ps: seq<ListPatient>, form: PatientForm, now: nat, nowIso: string)
    ensures ThisMonth(ps + [NewListPatient(form, now, nowIso)], nowIso) == ThisMonth(ps, nowIso) + 1
  {
    var inMonth := (p: ListPatient) => StartsWith(p.createdAt, CurrentMonth(nowIso));
    var added := NewListPatient(form, now, nowIso);
    FilterAppend(inMonth, ps, [added]);
    assert inMonth(added);
    assert Filter(inMonth, [added]) == [added] by {
      assert [added][1..] == [];
    }
  }
}
