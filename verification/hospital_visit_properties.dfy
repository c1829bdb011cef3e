/** HospitalVisitProperties: the overrides a caller hands to a hospital-visit
    provider, and the draft of provider fields they write to. */
module HospitalVisitProperties {
  import opened Wrappers
  import opened Calendar
  import opened Persons
  import opened HospitalVisits

  /** The fields of DefaultHospitalVisitProvider a visit is built from; None
      is Java's null, '\0' an unset char, 0 and false the defaults of the
      percentage and the flag. */
  datatype VisitDraft = VisitDraft(
    person: Option<Person>, patient: Option<Patient>, disease: Option<Disease>,
    ward: Option<Ward>, admissionType: Option<AdmissionType>,
    admissionDate: Option<DateTime>, dischargeDate: Option<DateTime>,
    diagnosis: Option<Disease>, dischargeType: Option<DischargeType>,
    deleted: char, visitType: char, dischargePercentage: int, isDischarged: bool)

  /** A freshly built provider: every field unset. */
  const EMPTY_VISIT: VisitDraft :=
    VisitDraft(None, None, None, None, None, None, None, None, None, '\0', '\0', 0, false)

  /** The override factories; withName, despite its name, takes a person. */
  datatype HospitalVisitProperty =
    | WithName(person: Person)
    | WithPatient(patient: Patient)
    | WithPerson(person: Person)
    | WithDisease(disease: Disease)
    | WithWard(ward: Ward)
    | WithDischargePercentage(dischargePercentage: int)
    | WithDischarged(isDischarged: bool)

  /** The draft after the setter one override calls. */
  function Overridden(d: VisitDraft, p: HospitalVisitProperty): VisitDraft {
    match p
    case WithName(v) => d.(person := Some(v))
    case WithPatient(v) => d.(patient := Some(v))
    case WithPerson(v) => d.(person := Some(v))
    case WithDisease(v) => d.(disease := Some(v))
    case WithWard(v) => d.(ward := Some(v))
    case WithDischargePercentage(v) => d.(dischargePercentage := v)
    case WithDischarged(v) => d.(isDischarged := v)
  }

  /** The draft after the overrides in order. */
  function OverriddenAll(d: VisitDraft, ps: seq<HospitalVisitProperty>): VisitDraft
    decreases |ps|
  {
    if ps == [] then d else OverriddenAll(Overridden(d, ps[0]), ps[1..])
  }

  /** Applying two lists of overrides one after the other is applying their
      concatenation. */
  lemma {:induction false} OverriddenAllAppend(d: VisitDraft, ps: seq<HospitalVisitProperty>,
                                               qs: seq<HospitalVisitProperty>)
    ensures OverriddenAll(d, ps + qs) == OverriddenAll(OverriddenAll(d, ps), qs)
    decreases |ps|
  {
    if ps == [] {
      assert ps + qs == qs;
    } else {
      assert (ps + qs)[0] == ps[0] && (ps + qs)[1..] == ps[1..] + qs;
      OverriddenAllAppend(Overridden(d, ps[0]), ps[1..], qs);
    }
  }

  /** The names of the fields an override can write. */
  datatype VisitField = PersonField | PatientField | DiseaseField | WardField
                      | DischargePercentageField | DischargedField

  /** The one field each override's setter assigns. */
  function Target(p: HospitalVisitProperty): VisitField {
    match p
    case WithName(_) => PersonField
    case WithPatient(_) => PatientField
    case WithPerson(_) => PersonField
    case WithDisease(_) => DiseaseField
    case WithWard(_) => WardField
    case WithDischargePercentage(_) => DischargePercentageField
    case WithDischarged(_) => DischargedField
  }

  /** The fields no override reaches: those get() alone fills in. */
  predicate SameGenerated(d: VisitDraft, e: VisitDraft) {
    d.admissionType == e.admissionType && d.admissionDate == e.admissionDate
    && d.dischargeDate == e.dischargeDate && d.diagnosis == e.diagnosis
    && d.dischargeType == e.dischargeType && d.deleted == e.deleted
    && d.visitType == e.visitType
  }

  /** Two drafts that agree on every field except possibly `f`. */
  predicate AgreeExcept(d: VisitDraft, e: VisitDraft, f: VisitField) {
    SameGenerated(d, e)
    && (f != PersonField ==> d.person == e.person)
    && (f != PatientField ==> d.patient == e.patient)
    && (f != DiseaseField ==> d.disease == e.disease)
    && (f != WardField ==> d.ward == e.ward)
    && (f != DischargePercentageField ==> d.dischargePercentage == e.dischargePercentage)
    && (f != DischargedField ==> d.isDischarged == e.isDischarged)
  }

  /** Each override sets its own field to its argument and leaves every
      other field alone; withName and withPerson both set the person. */
  lemma OverrideTouchesTarget(d: VisitDraft, p: HospitalVisitProperty)
    ensures AgreeExcept(d, Overridden(d, p), Target(p))
    ensures (p.WithName? || p.WithPerson?) ==> Overridden(d, p).person == Some(p.person)
    ensures p.WithPatient? ==> Overridden(d, p).patient == Some(p.patient)
    ensures p.WithDisease? ==> Overridden(d, p).disease == Some(p.disease)
    ensures p.WithWard? ==> Overridden(d, p).ward == Some(p.ward)
    ensures p.WithDischargePercentage? ==>
              Overridden(d, p).dischargePercentage == p.dischargePercentage
    ensures p.WithDischarged? ==> Overridden(d, p).isDischarged == p.isDischarged
  {
  }

  /** No list of overrides reaches the admission type, the dates, the
      diagnosis, the discharge type or the two flags. */
  lemma {:induction false} OverridesKeepGenerated(d: VisitDraft, ps: seq<HospitalVisitProperty>)
    ensures SameGenerated(d, OverriddenAll(d, ps))
    decreases |ps|
  {
    if ps != [] {
      OverrideTouchesTarget(d, ps[0]);
      OverridesKeepGenerated(Overridden(d, ps[0]), ps[1..]);
    }
  }

  /** The percentage the last withDischargePercentage sets, or `default`
      when there is none; read from the end of the list. */
  function LastPercentage(ps: seq<HospitalVisitProperty>, default: int): int
    decreases |ps|
  {
    if ps == [] then default
    else if ps[|ps| - 1].WithDischargePercentage? then ps[|ps| - 1].dischargePercentage
    else LastPercentage(ps[..|ps| - 1], default)
  }

  /** Of several withDischargePercentage overrides the last one wins. */
  lemma {:induction false} LastPercentageWins(d: VisitDraft, ps: seq<HospitalVisitProperty>)
    ensures OverriddenAll(d, ps).dischargePercentage == LastPercentage(ps, d.dischargePercentage)
    decreases |ps|
  {
    if ps != [] {
      var init := ps[..|ps| - 1];
      assert init + [ps[|ps| - 1]] == ps;
      OverriddenAllAppend(d, init, [ps[|ps| - 1]]);
      assert OverriddenAll(OverriddenAll(d, init), [ps[|ps| - 1]])
          == Overridden(OverriddenAll(d, init), ps[|ps| - 1]);
      LastPercentageWins(d, init);
    }
  }
}
