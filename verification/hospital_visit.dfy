/** HospitalVisit: the record a hospital-visit provider hands out, the
    hospital's own reference data it draws from, and the rules that pick a
    ward, a disease and the admission and discharge dates. */
module HospitalVisits {
  import opened Wrappers
  import opened Sexes
  import opened Calendar
  import opened Persons

  /** The hospital's reference records, known to the generator only by
      their codes. */
  datatype Patient = Patient(code: int)
  datatype Disease = Disease(code: string)
  datatype Ward = Ward(code: string)
  datatype AdmissionType = AdmissionType(code: string)
  datatype DischargeType = DischargeType(code: string)

  /** The disease type codes and ward codes the provider looks up. */
  const ALL_OTHER: string := "AO"
  const MATERNAL: string := "MP"
  const NON_COMMUNICABLE: string := "NC"
  const NOTIFIABLE: string := "ND"
  const INFECTIOUS_COMMUNICABLE: string := "OC"
  const CHILDREN_WARD: string := "C"
  const FEMALE_WARD: string := "F"
  const MALE_WARD: string := "I"
  const MATERNITY_WARD: string := "M"

  /** What the provider's constructor loads from the hospital's managers. */
  datatype HospitalData = HospitalData(
    allOtherDiseases: seq<Disease>, maternalDiseases: seq<Disease>,
    nonCommunicableDiseases: seq<Disease>, notifiableDiseases: seq<Disease>,
    infectiousCommunicableDiseases: seq<Disease>,
    childrenWard: Ward, femaleWard: Ward, maleWard: Ward, maternityWard: Ward,
    admissionTypes: seq<AdmissionType>, dischargeTypes: seq<DischargeType>)

  /** The visit in the order its constructor takes the fields; None is
      Java's null. `visitType` is the record's `type` ('N' normal, 'M'
      malnutrition). */
  datatype HospitalVisit = HospitalVisit(
    person: Option<Person>, patient: Option<Patient>, disease: Option<Disease>,
    ward: Option<Ward>, admissionType: Option<AdmissionType>,
    admissionDate: Option<DateTime>, dischargeDate: Option<DateTime>,
    diagnosis: Option<Disease>, dischargeType: Option<DischargeType>,
    deleted: char, visitType: char)

  /** The list the switch on randomBetween(0, 2) picks a disease from. */
  function DiseaseGroup(data: HospitalData, group: int): seq<Disease> {
    if group == 0 then data.nonCommunicableDiseases
    else if group == 1 then data.notifiableDiseases
    else data.infectiousCommunicableDiseases
  }

  /** Every disease a provider can generate: the union of the three groups. */
  function GeneratedDiseases(data: HospitalData): (r: seq<Disease>)
    ensures |r| == |data.nonCommunicableDiseases| + |data.notifiableDiseases|
                   + |data.infectiousCommunicableDiseases|
  {
    data.nonCommunicableDiseases + data.notifiableDiseases + data.infectiousCommunicableDiseases
  }

  /** Each group's diseases are among the generated ones, whatever the group
      number. */
  lemma GroupInGenerated(data: HospitalData, group: int, d: Disease)
    requires d in DiseaseGroup(data, group)
    ensures d in GeneratedDiseases(data)
  {
    var g := GeneratedDiseases(data);
    var nc := data.nonCommunicableDiseases;
    var nd := data.notifiableDiseases;
    if group == 0 {
      var i :| 0 <= i < |nc| && nc[i] == d;
      assert g[i] == d;
    } else if group == 1 {
      var i :| 0 <= i < |nd| && nd[i] == d;
      assert g[|nc| + i] == d;
    } else {
      var oc := data.infectiousCommunicableDiseases;
      var i :| 0 <= i < |oc| && oc[i] == d;
      assert g[|nc| + |nd| + i] == d;
    }
  }

  /** Every generated disease comes from one of the three groups: the
      maternal list contributes nothing of its own. */
  lemma GeneratedInSomeGroup(data: HospitalData, d: Disease)
    requires d in GeneratedDiseases(data)
    ensures exists group :: 0 <= group <= 2 && d in DiseaseGroup(data, group)
  {
    var nc := data.nonCommunicableDiseases;
    var nd := data.notifiableDiseases;
    var i :| 0 <= i < |GeneratedDiseases(data)| && GeneratedDiseases(data)[i] == d;
    if i < |nc| {
      assert d == nc[i] && d in DiseaseGroup(data, 0);
    } else if i < |nc| + |nd| {
      assert d == nd[i - |nc|] && d in DiseaseGroup(data, 1);
    } else {
      assert d == data.infectiousCommunicableDiseases[i - |nc| - |nd|];
      assert d in DiseaseGroup(data, 2);
    }
  }

  /** generateWard on a known sex and age. */
  function WardFor(data: HospitalData, sex: Sex, age: int): Ward {
    if age <= 12 then data.childrenWard
    else if sex == Male then data.maleWard
    else if 18 <= age <= 39 then data.maternityWard
    else data.femaleWard
  }

  /** The four wards are four different records. */
  predicate DistinctWards(data: HospitalData) {
    data.childrenWard != data.femaleWard && data.childrenWard != data.maleWard
    && data.childrenWard != data.maternityWard && data.femaleWard != data.maleWard
    && data.femaleWard != data.maternityWard && data.maleWard != data.maternityWard
  }

  /** With four different wards, who lands where: children up to 12 in the
      children ward, older males in the male ward, women of 18 to 39 in the
      maternity ward and the remaining females in the female ward. */
  lemma WardRules(data: HospitalData, sex: Sex, age: int)
    requires DistinctWards(data)
    ensures WardFor(data, sex, age) == data.childrenWard <==> age <= 12
    ensures WardFor(data, sex, age) == data.maleWard <==> age > 12 && sex == Male
    ensures WardFor(data, sex, age) == data.maternityWard <==> sex == Female && 18 <= age <= 39
    ensures WardFor(data, sex, age) == data.femaleWard <==>
              sex == Female && (13 <= age <= 17 || age >= 40)
  {
  }

  /** A person's ward, or the NullPointerException that unboxing a null
      age throws. */
  function WardOf(data: HospitalData, p: Person): (r: Result<Ward>)
    ensures r.Success? <==> p.age.Some?
    ensures r.Failure? ==> r.error == NullPointer
    ensures r.Success? ==> r.value == WardFor(data, p.sex, p.age.value)
  {
    match GetAge(p)
    case Success(age) => Success(WardFor(data, p.sex, age))
    case Failure(e) => Failure(e)
  }

  /** The maternity ward never receives a male or a child. */
  lemma MaternityOnlyForWomen(data: HospitalData, p: Person)
    requires DistinctWards(data) && WardOf(data, p) == Success(data.maternityWard)
    ensures IsFemale(p) && 18 <= p.age.value <= 39
  {
    WardRules(data, p.sex, p.age.value);
  }

  /** An admission date generateAdmissionDate can produce after drawing
      `days`: midnight of a day between 2 * days - 1 and days days before
      today. */
  predicate AdmissionWindow(now: DateTime, days: int, t: DateTime)
    requires ValidDateTime(now)
  {
    ValidDateTime(t) && t.milli == 0
    && EpochDay(now.date) - (2 * days - 1) <= EpochDay(t.date) <= EpochDay(now.date) - days
  }

  /** A discharge date generateDischargeDate can produce: midnight of a day
      after the admission day and not after today. */
  predicate DischargeWindow(admission: DateTime, now: DateTime, t: DateTime)
    requires ValidDateTime(admission) && ValidDateTime(now)
  {
    ValidDateTime(t) && t.milli == 0
    && EpochDay(admission.date) + 1 <= EpochDay(t.date) <= EpochDay(now.date)
  }

  /** The interval generateDischargeDate draws from, admission + 1 day up to
      now, is non-empty. */
  predicate DischargeRoom(admission: DateTime, now: DateTime)
    requires ValidDateTime(admission) && ValidDateTime(now)
  {
    EpochMilli(TimePlusDays(admission, 1)) <= EpochMilli(now)
  }

  /** A generated admission date lies at least four days back, so the
      discharge draw that follows always has room. */
  lemma AdmissionLeavesRoom(now: DateTime, days: int, t: DateTime)
    requires ValidDateTime(now) && days >= 4 && AdmissionWindow(now, days, t)
    ensures DischargeRoom(t, now)
  {
    assert EpochMilli(TimePlusDays(t, 1)) == EpochDay(t.date) * DAY_MS + DAY_MS;
    assert EpochDay(t.date) + 1 <= EpochDay(now.date);
    MultiplyDays(EpochDay(t.date) + 1, EpochDay(now.date));
  }

  lemma MultiplyDays(a: int, b: int)
    requires a <= b
    ensures a * DAY_MS <= b * DAY_MS
  {
  }

  /** The discharge comes on a later day than the admission. */
  lemma DischargeAfterAdmission(admission: DateTime, now: DateTime, t: DateTime)
    requires ValidDateTime(admission) && ValidDateTime(now)
    requires DischargeWindow(admission, now, t)
    ensures Before(admission.date, t.date) && NotAfter(t.date, now.date)
  {
    EpochDayMonotone(admission.date, t.date);
    EpochDayMonotone(now.date, t.date);
  }
}
