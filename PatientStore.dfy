/**
 * The server's in-memory patient store and its FHIR export
 * (server/routes/patients.ts). The store is a JavaScript `Map` from id to
 * record: `order` keeps its insertion order (which `values()` follows) and
 * `records` its contents. Create and add-diagnosis change the store; get,
 * list and export only read it.
 */
module PatientStore {

  import opened Text
  import opened Fhir
  import opened Request

  datatype Diagnosis = Diagnosis(code: string, icd11Code: string, description: string, recordedDate: string)

  datatype PatientRecord = PatientRecord(
    id: string,
    patient: PatientResource,
    diagnoses: seq<Diagnosis>,
    createdAt: string,
    updatedAt: string)

  datatype CreatePatientBody = CreatePatientBody(firstName: Field, lastName: Field, birthDate: Field, gender: Field)

  datatype AddDiagnosisBody = AddDiagnosisBody(code: Field, icd11Code: Field, description: Field)

  /** What the create schema yields on success. */
  datatype NewPatient = NewPatient(firstName: string, lastName: string, birthDate: Option<string>, gender: Option<string>)

  /** What the add-diagnosis schema yields on success. */
  datatype NewDiagnosis = NewDiagnosis(code: string, icd11Code: string, description: string)

  predicate IsGender(s: string)
  {
    s == "male" || s == "female" || s == "other"
  }

  function OptionalString(f: Field): Option<string>
  {
    if f.Str? then Some(f.s) else None
  }

  /**
   * The create schema: first and last name required strings, birth date an
   * optional string, gender optional and one of male, female, other.
   */
  function ParseCreatePatient(b: CreatePatientBody): (r: Option<NewPatient>)
    ensures r.Some? <==> b.firstName.Str? && b.lastName.Str? && !b.birthDate.OtherJson?
                         && (b.gender.Absent? || (b.gender.Str? && IsGender(b.gender.s)))
    ensures r.Some? ==> r.value.firstName == b.firstName.s && r.value.lastName == b.lastName.s
    ensures r.Some? && r.value.gender.Some? ==> IsGender(r.value.gender.value)
  {
    if b.firstName.Str? && b.lastName.Str? && !b.birthDate.OtherJson?
       && (b.gender.Absent? || (b.gender.Str? && IsGender(b.gender.s)))
    then Some(NewPatient(b.firstName.s, b.lastName.s, OptionalString(b.birthDate), OptionalString(b.gender)))
    else None
  }

  /** The add-diagnosis schema: three required strings. */
  function ParseAddDiagnosis(b: AddDiagnosisBody): (r: Option<NewDiagnosis>)
    ensures r.Some? <==> b.code.Str? && b.icd11Code.Str? && b.description.Str?
    ensures r.Some? ==> r.value == NewDiagnosis(b.code.s, b.icd11Code.s, b.description.s)
  {
    if b.code.Str? && b.icd11Code.Str? && b.description.Str?
    then Some(NewDiagnosis(b.code.s, b.icd11Code.s, b.description.s))
    else None
  }

  /** `P${Date.now()}`. */
  function PatientId(now: nat): string
  {
    "P" + DecimalString(now)
  }

  /** The record a successful create stores. */
  function NewRecord(id: string, p: NewPatient, createdAt: string, updatedAt: string): PatientRecord
  {
    PatientRecord(id, PatientResource(id, OfficialName(p.firstName, p.lastName), p.birthDate, p.gender, None),
                  [], createdAt, updatedAt)
  }

  // ----------------------------------------------------------- the export

  /** The Condition exported for the `i`-th diagnosis; `stamp(i)` is the clock read for its id. */
  function ConditionFor(record: PatientRecord, i: nat, stamp: nat -> nat): ConditionResource
    requires i < |record.diagnoses|
  {
    var d := record.diagnoses[i];
    ConditionResource("C" + DecimalString(stamp(i)),
                      [Coding(IcdMmsSystem, d.icd11Code, d.description)],
                      PatientReference(record.id), d.recordedDate, None)
  }

  /** The document Bundle: the stored Patient, then one Condition per diagnosis. */
  function ExportBundle(record: PatientRecord, timestamp: string, stamp: nat -> nat): (b: Bundle)
    ensures |b.entry| == |record.diagnoses| + 1
  {
    var n := |record.diagnoses|;
    Bundle(DocumentType, timestamp,
           [PatientEntry(record.patient)]
           + seq(n, i requires 0 <= i < n => ConditionEntry(ConditionFor(record, i, stamp))))
  }

  // ------------------------------------------------------------ responses

  datatype CreateResponse = PatientCreated(record: PatientRecord) | InvalidPatient

  datatype GetResponse = PatientFound(record: PatientRecord) | PatientNotFound

  datatype AddDiagnosisResponse = DiagnosisAdded(diagnosis: Diagnosis) | InvalidDiagnosis | DiagnosisPatientNotFound

  datatype ExportResponse = Exported(bundle: Bundle) | ExportPatientNotFound

  function CreateStatus(r: CreateResponse): nat { if r.PatientCreated? then 201 else 400 }

  function GetStatus(r: GetResponse): nat { if r.PatientFound? then 200 else 404 }

  function AddDiagnosisStatus(r: AddDiagnosisResponse): nat
  {
    match r
    case DiagnosisAdded(_) => 201
    case InvalidDiagnosis => 400
    case DiagnosisPatientNotFound => 404
  }

  function ExportStatus(r: ExportResponse): nat { if r.Exported? then 200 else 404 }

  /** The record the store starts with. */
  const SeedRecord: PatientRecord :=
    PatientRecord("P001",
                  PatientResource("P001", OfficialName("John", "Doe"), Some("1980-01-15"), Some("male"), None),
                  [Diagnosis("AYR-001", "BA25.1", "Vata Vyadhi (Wind Disorder)", "2024-01-10")],
                  "2024-01-01", "2024-01-10")

  predicate Distinct(s: seq<string>)
  {
    forall i, j :: 0 <= i < j < |s| ==> s[i] != s[j]
  }

  /** A sequence without repetitions has as many elements as its set. */
  lemma {:induction false} DistinctCardinality(s: seq<string>)
    requires Distinct(s)
    ensures |set x | x in s| == |s|
  {
    if s != [] {
      DistinctCardinality(s[1..]);
      assert (set x | x in s) == {s[0]} + (set x | x in s[1..]);
      assert s[0] !in s[1..];
    }
  }

  class Store {
    /** Insertion order of the map's keys. */
    var order: seq<string>
    /** The map's contents. */
    var records: map<string, PatientRecord>

    ghost predicate Valid()
      reads this
    {
      && Distinct(order)
      && (forall id :: id in records <==> id in order)
      && (forall id :: id in records ==> records[id].id == id && records[id].patient.id == id)
    }

    constructor ()
      ensures Valid()
      ensures order == ["P001"] && records == map["P001" := SeedRecord]
    {
      order := ["P001"];
      records := map["P001" := SeedRecord];
    }

    /** `handleCreatePatient`: 400 on a schema failure, else store a fresh record under `P<now>` and answer 201. */
    method CreatePatient(body: CreatePatientBody, now: nat, createdAt: string, updatedAt: string)
      returns (r: CreateResponse)
      requires Valid()
      modifies this
      ensures Valid()
      ensures r.InvalidPatient? <==> ParseCreatePatient(body).None?
      ensures r.InvalidPatient? ==> order == old(order) && records == old(records)
      ensures r.PatientCreated? ==>
                var id := PatientId(now);
                && r.record == NewRecord(id, ParseCreatePatient(body).value, createdAt, updatedAt)
                && r.record.id == id && r.record.patient.id == id && r.record.diagnoses == []
                && records == old(records)[id := r.record]
                && order == if id in old(records) then old(order) else old(order) + [id]
    {
      var data := ParseCreatePatient(body);
      if data.None? {
        return InvalidPatient;
      }
      var id := PatientId(now);
      var record := NewRecord(id, data.value, createdAt, updatedAt);
      if id !in records {
        order := order + [id];
      }
      records := records[id := record];
      r := PatientCreated(record);
    }

    /** `handleGetPatient`: 404 exactly when the id is absent, else the stored record. */
    method GetPatient(id: string) returns (r: GetResponse)
      requires Valid()
      ensures r.PatientNotFound? <==> id !in records
      ensures r.PatientFound? ==> r.record == records[id] && r.record.id == id
    {
      if id in records {
        r := PatientFound(records[id]);
      } else {
        r := PatientNotFound;
      }
    }

    /** `handleListPatients`: every stored record, in insertion order, and their number. */
    method ListPatients() returns (patients: seq<PatientRecord>, total: nat)
      requires Valid()
      ensures |patients| == |order|
      ensures total == |patients| == |records|
      ensures forall i :: 0 <= i < |order| ==> patients[i] == records[order[i]]
      ensures forall id :: id in records ==> records[id] in patients
      ensures forall p :: p in patients ==> p.id in records && records[p.id] == p
    {
      var keys, contents := order, records;
      patients := seq(|keys|, i requires 0 <= i < |keys| && keys[i] in contents => contents[keys[i]]);
      total := |patients|;
      DistinctCardinality(order);
      assert records.Keys == set x | x in order;
      forall id | id in records ensures records[id] in patients {
        var i :| 0 <= i < |order| && order[i] == id;
        assert patients[i] == records[id];
      }
    }

    /**
     * `handleAddDiagnosis`: the body is checked first (400), then the id (404);
     * on success one diagnosis is appended to that record, its `updatedAt`
     * changes, and every other record stays as it was.
     */
    method AddDiagnosis(patientId: string, body: AddDiagnosisBody, nowIso: string, updatedAt: string)
      returns (r: AddDiagnosisResponse)
      requires Valid()
      modifies this
      ensures Valid()
      ensures r.InvalidDiagnosis? <==> ParseAddDiagnosis(body).None?
      ensures r.DiagnosisPatientNotFound? <==> ParseAddDiagnosis(body).Some? && patientId !in old(records)
      ensures !r.DiagnosisAdded? ==> order == old(order) && records == old(records)
      ensures r.DiagnosisAdded? ==>
                var d := ParseAddDiagnosis(body).value;
                var before := old(records)[patientId];
                && r.diagnosis == Diagnosis(d.code, d.icd11Code, d.description, DatePart(nowIso))
                && order == old(order)
                && records == old(records)[patientId := before.(diagnoses := before.diagnoses + [r.diagnosis],
                                                                 updatedAt := updatedAt)]
      ensures r.DiagnosisAdded? ==>
                forall other :: other in old(records) && other != patientId ==> records[other] == old(records)[other]
    {
      var data := ParseAddDiagnosis(body);
      if data.None? {
        return InvalidDiagnosis;
      }
      if patientId !in records {
        return DiagnosisPatientNotFound;
      }
      var patient := records[patientId];
      var diagnosis := Diagnosis(data.value.code, data.value.icd11Code, data.value.description, DatePart(nowIso));
      patient := patient.(diagnoses := patient.diagnoses + [diagnosis], updatedAt := updatedAt);
      records := records[patientId := patient];
      r := DiagnosisAdded(diagnosis);
    }

    /**
     * `handleExportPatientFHIR`: 404 for an unknown id, else a document Bundle
     * whose entry 0 is the stored Patient and whose entry `i+1` is the
     * Condition for diagnosis `i`. The store is not modified (no `modifies`).
     */
    method ExportFhir(patientId: string, timestamp: string, stamp: nat -> nat) returns (r: ExportResponse)
      requires Valid()
      ensures r.ExportPatientNotFound? <==> patientId !in records
      ensures r.Exported? ==>
                var record := records[patientId];
                var n := |record.diagnoses|;
                && r.bundle.bundleType == "document"
                && r.bundle.timestamp == timestamp
                && |r.bundle.entry| == n + 1
                && r.bundle.entry[0] == PatientEntry(record.patient)
                && r.bundle.entry[0].patient.id == patientId
                && forall i :: 0 <= i < n ==>
                     && r.bundle.entry[i + 1].ConditionEntry?
                     && var c := r.bundle.entry[i + 1].condition;
                     && c.coding == [Coding(IcdMmsSystem, record.diagnoses[i].icd11Code, record.diagnoses[i].description)]
                     && c.subjectReference == "Patient/" + patientId
                     && c.recordedDate == record.diagnoses[i].recordedDate
                     && c.note.None?
                     && c.id == "C" + DecimalString(stamp(i))
    {
      if patientId !in records {
        return ExportPatientNotFound;
      }
      r := Exported(ExportBundle(records[patientId], timestamp, stamp));
    }
  }

  /** Creating a patient and then fetching it returns the created record. */
  method CreateThenGet(store: Store, body: CreatePatientBody, now: nat, createdAt: string, updatedAt: string)
    returns (created: CreateResponse, fetched: GetResponse)
    requires store.Valid()
    requires ParseCreatePatient(body).Some?
    modifies store
    ensures store.Valid()
    ensures created.PatientCreated? && fetched == PatientFound(created.record)
    ensures fetched.record.patient.name == OfficialName(body.firstName.s, body.lastName.s)
  {
    created := store.CreatePatient(body, now, createdAt, updatedAt);
    fetched := store.GetPatient(PatientId(now));
  }

  /** A diagnosis added through the API is the last Condition of the next export. */
  method AddThenExport(store: Store, patientId: string, body: AddDiagnosisBody, nowIso: string,
                       updatedAt: string, timestamp: string, stamp: nat -> nat)
    returns (added: AddDiagnosisResponse, exported: ExportResponse)
    requires store.Valid()
    requires patientId in store.records && ParseAddDiagnosis(body).Some?
    modifies store
    ensures store.Valid()
    ensures added.DiagnosisAdded? && exported.Exported?
    ensures var n := |old(store.records)[patientId].diagnoses|;
            && |exported.bundle.entry| == n + 2
            && exported.bundle.entry[n + 1].ConditionEntry?
            && exported.bundle.entry[n + 1].condition.coding
               == [Coding(IcdMmsSystem, body.icd11Code.s, body.description.s)]
  {
    ghost var n := |store.records[patientId].diagnoses|;
    added := store.AddDiagnosis(patientId, body, nowIso, updatedAt);
    assert store.records[patientId].diagnoses[n] == added.diagnosis;
    exported := store.ExportFhir(patientId, timestamp, stamp);
  }
}
