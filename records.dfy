/** The analysis record as the reconciliation reads it, the table of tracked
    fields, and the string form in which observed values are compared. */
module Records {

  datatype Option<+T> = None | Some(value: T)

  /** A value read from a record: JSON null (Python None) or a string. */
  type Value = Option<string>

  datatype Specimen = Specimen(
    specimenId: Value,
    specimenType: Value,
    tumourNormalDesignation: Value,
    specimenTissueSource: Value)

  datatype Donor = Donor(donorId: Value, gender: Value)

  /** The first element of an analysis' sample list: the only one read. */
  datatype Sample = Sample(
    sampleId: string,
    submitterSampleId: Value,
    sampleType: Value,
    matchedNormalSubmitterSampleId: Value,
    specimen: Specimen,
    donor: Donor)

  datatype AnalysisRecord = AnalysisRecord(
    analysisId: string,
    analysisTypeName: Option<string>,  // analysisType.name, absent when analysisType is missing
    experimentalStrategy: string,      // experiment.experimental_strategy
    sample: Sample,
    studyId: Value)

  /** The ten tracked fields of sample_fields. */
  datatype Field =
    | SubmitterSampleId
    | SampleType
    | MatchedNormalSubmitterSampleId
    | SpecimenId
    | SpecimenType
    | TumourNormalDesignation
    | SpecimenTissueSource
    | DonorId
    | Gender
    | StudyId

  /** The tracked fields in the order the aggregation visits them. */
  const TrackedFields: seq<Field> := [
    SubmitterSampleId, SampleType, MatchedNormalSubmitterSampleId, SpecimenId, SpecimenType,
    TumourNormalDesignation, SpecimenTissueSource, DonorId, Gender, StudyId]

  lemma TrackedFieldsAreAllFields()
    ensures forall f: Field :: f in TrackedFields
    ensures forall i, j :: 0 <= i < j < |TrackedFields| ==> TrackedFields[i] != TrackedFields[j]
  {
    forall f: Field ensures f in TrackedFields {
      match f
      case SubmitterSampleId => assert TrackedFields[0] == f;
      case SampleType => assert TrackedFields[1] == f;
      case MatchedNormalSubmitterSampleId => assert TrackedFields[2] == f;
      case SpecimenId => assert TrackedFields[3] == f;
      case SpecimenType => assert TrackedFields[4] == f;
      case TumourNormalDesignation => assert TrackedFields[5] == f;
      case SpecimenTissueSource => assert TrackedFields[6] == f;
      case DonorId => assert TrackedFields[7] == f;
      case Gender => assert TrackedFields[8] == f;
      case StudyId => assert TrackedFields[9] == f;
    }
  }

  /** Reads a tracked field: the typed counterpart of resolving its dotted path.
      Every field has an accessor, so no path shape can be unrecognised. */
  function Observe(a: AnalysisRecord, f: Field): Value
  {
    match f
    case SubmitterSampleId => a.sample.submitterSampleId
    case SampleType => a.sample.sampleType
    case MatchedNormalSubmitterSampleId => a.sample.matchedNormalSubmitterSampleId
    case SpecimenId => a.sample.specimen.specimenId
    case SpecimenType => a.sample.specimen.specimenType
    case TumourNormalDesignation => a.sample.specimen.tumourNormalDesignation
    case SpecimenTissueSource => a.sample.specimen.specimenTissueSource
    case DonorId => a.sample.donor.donorId
    case Gender => a.sample.donor.gender
    case StudyId => a.studyId
  }

  /** Python's str() of a value: null prints as "None". */
  function Show(v: Value): (s: string)
    ensures s == "None" <==> v == None || v == Some("None")
  {
    match v
    case None => "None"
    case Some(x) => x
  }

  /** The canonical value of a unanimous string: "None" becomes null. */
  function Canon(s: string): (v: Value)
    ensures Show(v) == s
    ensures v == None <==> s == "None"
  {
    if s == "None" then None else Some(s)
  }

  /** Showing a value and canonicalising the string gives the value back,
      except for the string "None", which becomes null. */
  lemma CanonShow(v: Value)
    ensures Canon(Show(v)) == (if v == Some("None") then None else v)
  {
  }

  predicate IsSequencing(a: AnalysisRecord)
  {
    a.analysisTypeName == Some("sequencing_experiment")
    || a.analysisTypeName == Some("rna_sequencing_experiment")
  }
}
