/**
 * The shapes of the HL7 FHIR R4 resources the application exports: a `Bundle`
 * (section 2.36) whose entries are one `Patient` (section 8.1) and `Condition`
 * resources (section 9.2) coded against the WHO ICD-11 MMS system. Only the
 * fields the application fills in are modelled; `resourceType` is the
 * constructor.
 */
module Fhir {

  import opened Text

  /** The coding system URI of ICD-11 for Mortality and Morbidity Statistics. */
  const IcdMmsSystem: string := "http://id.who.int/icd/release/11/mms"

  /** Bundle type `document`. */
  const DocumentType: string := "document"

  datatype HumanName = HumanName(use: string, given: seq<string>, family: string)

  datatype ContactPoint = ContactPoint(system: string, value: string)

  datatype PatientResource = PatientResource(
    id: string,
    name: seq<HumanName>,
    birthDate: Option<string>,
    gender: Option<string>,
    contact: Option<seq<ContactPoint>>)

  datatype Coding = Coding(system: string, code: string, display: string)

  datatype Annotation = Annotation(text: string)

  datatype ConditionResource = ConditionResource(
    id: string,
    coding: seq<Coding>,
    subjectReference: string,
    recordedDate: string,
    note: Option<seq<Annotation>>)

  datatype Resource = PatientEntry(patient: PatientResource) | ConditionEntry(condition: ConditionResource)

  datatype Bundle = Bundle(bundleType: string, timestamp: string, entry: seq<Resource>)

  /** The `official` name built from one given name and a family name. */
  function OfficialName(given: string, family: string): seq<HumanName>
  {
    [HumanName("official", [given], family)]
  }

  /** `Patient/<id>`, the reference a Condition's `subject` carries. */
  function PatientReference(id: string): (r: string)
    ensures StartsWith(r, "Patient/") && r[8..] == id
  {
    "Patient/" + id
  }

  /** The reference names exactly one patient id. */
  lemma PatientReferenceInjective(a: string, b: string)
    requires PatientReference(a) == PatientReference(b)
    ensures a == b
  {
    assert a == PatientReference(a)[8..];
  }
}
