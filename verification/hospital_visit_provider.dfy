/** DefaultHospitalVisitProvider: fills in the disease, the ward, the
    admission type and date, and, for a discharged visit, the discharge
    date, diagnosis and discharge type, keeping whatever the overrides or
    setters preset. The clock reading `now` is a parameter, and so is what
    the constructor loads from the hospital's managers. */
module HospitalVisitProviders {
  import opened Wrappers
  import opened Calendar
  import opened Random
  import DateProducer
  import opened Persons
  import opened HospitalVisits
  import opened HospitalVisitProperties

  /** The lists the provider draws from hold something: no draw of get()
      meets an empty list. */
  predicate ListsNonEmpty(data: HospitalData) {
    data.maternalDiseases != [] && data.nonCommunicableDiseases != []
    && data.notifiableDiseases != [] && data.infectiousCommunicableDiseases != []
    && data.admissionTypes != [] && data.dischargeTypes != []
  }

  /** The outcome of one disease draw for a person: a female first tosses
      `coin`, and on heads draws a maternal disease, which an empty list
      turns into an exception; then the switch on `group` picks from one of
      the three groups, replacing any maternal pick. */
  predicate DiseaseDrawn(data: HospitalData, female: bool, coin: bool, group: int,
                         r: Result<Disease>) {
    (coin ==> female)
    && if coin && data.maternalDiseases == [] then r == Failure(BadRange)
       else 0 <= group <= 2
            && (r.Success? <==> DiseaseGroup(data, group) != [])
            && (r.Success? ==> r.value in DiseaseGroup(data, group))
            && (r.Failure? ==> r.error == BadRange)
  }

  /** Whatever the coin and the group, a drawn disease is a generated one,
      and with non-empty lists the draw succeeds. */
  lemma DrawnDiseaseGenerated(data: HospitalData, female: bool, coin: bool, group: int,
                              r: Result<Disease>)
    requires DiseaseDrawn(data, female, coin, group, r)
    ensures r.Success? ==> r.value in GeneratedDiseases(data)
    ensures ListsNonEmpty(data) ==> r.Success?
  {
    if r.Success? {
      GroupInGenerated(data, group, r.value);
    }
  }

  /** The draw generateDisease and generateDiagnosis share. */
  method DrawDisease(rng: RandomSource, data: HospitalData, female: bool)
    returns (r: Result<Disease>, ghost coin: bool, ghost group: int)
    modifies rng
    ensures DiseaseDrawn(data, female, coin, group, r)
    ensures female ==> coin == (rng.draws(old(rng.position)) % 2 == 0)
  {
    coin, group := false, 0;
    r := Failure(BadRange);
    if female {
      var heads := rng.TrueOrFalse();
      coin := heads;
      if heads {
        r := rng.RandomElement(data.maternalDiseases);
        if r.Failure? {
          return;
        }
      }
    }
    var g := rng.RandomBetween(0, 2);
    group := g;
    r := rng.RandomElement(DiseaseGroup(data, g));
  }

  /** The admission date: `days` drawn in [4, 20], a moment drawn between
      now - (2 * days - 1) days and now - days days, truncated to midnight. */
  method DrawAdmissionDate(rng: RandomSource, now: DateTime) returns (t: DateTime, ghost days: int)
    requires ValidDateTime(now)
    modifies rng
    ensures 4 <= days <= 20 && days == 4 + rng.draws(old(rng.position)) % 17
    ensures AdmissionWindow(now, days, t)
  {
    var d := rng.RandomBetween(4, 20);
    days := d;
    var maxDate := TimePlusDays(now, -d);
    var minDate := TimePlusDays(maxDate, -(d - 1));
    var drawn := DateProducer.RandomDateBetweenTimes(rng, minDate, maxDate);
    var x := drawn.value;
    DateNotAfter(minDate, x);
    DateNotAfter(x, maxDate);
    EpochDayMonotone(x.date, minDate.date);
    EpochDayMonotone(maxDate.date, x.date);
    t := AtMidnight(x);
  }

  /** The discharge date: a moment drawn between admission + 1 day and now,
      truncated to midnight; an admission later than a day ago leaves an
      empty range. */
  method DrawDischargeDate(rng: RandomSource, admission: DateTime, now: DateTime)
    returns (r: Result<DateTime>)
    requires ValidDateTime(admission) && ValidDateTime(now)
    modifies rng
    ensures r.Success? <==> DischargeRoom(admission, now)
    ensures r.Success? ==> DischargeWindow(admission, now, r.value)
    ensures r.Failure? ==> r.error == BadRange
  {
    var from := TimePlusDays(admission, 1);
    var drawn := DateProducer.RandomDateBetweenTimes(rng, from, now);
    if drawn.Failure? {
      return Failure(drawn.error);
    }
    var x := drawn.value;
    DateNotAfter(from, x);
    DateNotAfter(x, now);
    EpochDayMonotone(x.date, from.date);
    EpochDayMonotone(now.date, x.date);
    r := Success(AtMidnight(x));
  }

  /** The presets get() never overwrites. */
  predicate PresetsKept(before: VisitDraft, after: VisitDraft) {
    (before.disease.Some? ==> after.disease == before.disease)
    && (before.ward.Some? ==> after.ward == before.ward)
    && (before.admissionType.Some? ==> after.admissionType == before.admissionType)
    && (before.admissionDate.Some? ==> after.admissionDate == before.admissionDate)
    && (before.diagnosis.Some? ==> after.diagnosis == before.diagnosis)
    && (before.dischargeType.Some? ==> after.dischargeType == before.dischargeType)
  }

  /** What the admission steps leave behind: each field either kept from
      its preset or generated (a disease from the three groups, the ward the
      person's age and sex call for, an admission type from the list, an
      admission date `days` drawn days back). */
  predicate AdmissionDone(data: HospitalData, now: DateTime, before: VisitDraft,
                          after: VisitDraft, days: int)
    requires ValidDateTime(now)
  {
    after.disease.Some? && after.ward.Some? && after.admissionType.Some?
    && after.admissionDate.Some? && ValidDateTime(after.admissionDate.value)
    && (before.disease.None? ==> after.disease.value in GeneratedDiseases(data))
    && (before.ward.None? ==>
          after.person.Some? && WardOf(data, after.person.value) == Success(after.ward.value))
    && (before.admissionType.None? ==> after.admissionType.value in data.admissionTypes)
    && (before.admissionDate.None? ==>
          4 <= days <= 20 && AdmissionWindow(now, days, after.admissionDate.value))
  }

  /** What the discharge steps leave behind: the visit is discharged exactly
      when the draw is at most the percentage; a discharged visit has a
      discharge date after the admission day, a diagnosis and a discharge
      type, and any other visit keeps all three as they were. */
  predicate DischargeDone(data: HospitalData, now: DateTime, before: VisitDraft,
                          after: VisitDraft, draw: int)
    requires ValidDateTime(now)
    requires after.admissionDate.Some? && ValidDateTime(after.admissionDate.value)
  {
    1 <= draw <= 100 && (after.isDischarged <==> draw <= after.dischargePercentage)
    && if after.isDischarged then
         after.dischargeDate.Some?
         && DischargeWindow(after.admissionDate.value, now, after.dischargeDate.value)
         && after.diagnosis.Some? && after.dischargeType.Some?
         && (before.diagnosis.None? ==> after.diagnosis.value in GeneratedDiseases(data))
         && (before.dischargeType.None? ==> after.dischargeType.value in data.dischargeTypes)
       else
         after.dischargeDate == before.dischargeDate && after.diagnosis == before.diagnosis
         && after.dischargeType == before.dischargeType
  }

  lemma PresetsKeptTransitive(a: VisitDraft, b: VisitDraft, c: VisitDraft)
    requires PresetsKept(a, b) && PresetsKept(b, c)
    ensures PresetsKept(a, c)
  {
  }

  /** Setting the two flags disturbs none of what the steps produced. */
  lemma FlagsLeaveSteps(data: HospitalData, now: DateTime, before: VisitDraft, mid: VisitDraft,
                        after: VisitDraft, days: int, draw: int)
    requires ValidDateTime(now) && after == mid.(deleted := after.deleted, visitType := after.visitType)
    requires PresetsKept(before, mid) && AdmissionDone(data, now, before, mid, days)
    requires DischargeDone(data, now, before, mid, draw)
    ensures PresetsKept(before, after) && AdmissionDone(data, now, before, after, days)
    ensures DischargeDone(data, now, before, after, draw)
  {
  }

  /** The discharge steps leave what the admission steps produced alone. */
  lemma AdmissionDoneFrame(data: HospitalData, now: DateTime, before: VisitDraft,
                           mid: VisitDraft, after: VisitDraft, days: int)
    requires ValidDateTime(now) && AdmissionDone(data, now, before, mid, days)
    requires after.person == mid.person && after.disease == mid.disease
    requires after.ward == mid.ward && after.admissionType == mid.admissionType
    requires after.admissionDate == mid.admissionDate
    ensures AdmissionDone(data, now, before, after, days)
  {
  }

  /** The admission steps leave what the discharge steps start from alone. */
  lemma DischargeDoneFrame(data: HospitalData, now: DateTime, before: VisitDraft,
                           mid: VisitDraft, after: VisitDraft, draw: int)
    requires ValidDateTime(now)
    requires after.admissionDate.Some? && ValidDateTime(after.admissionDate.value)
    requires DischargeDone(data, now, mid, after, draw)
    requires before.dischargeDate == mid.dischargeDate && before.diagnosis == mid.diagnosis
    requires before.dischargeType == mid.dischargeType
    ensures DischargeDone(data, now, before, after, draw)
  {
  }

  /** The visit get() builds from the provider's fields. */
  function Built(d: VisitDraft): (v: HospitalVisit)
    ensures v.person == d.person && v.patient == d.patient && v.disease == d.disease
    ensures v.ward == d.ward && v.admissionType == d.admissionType
    ensures v.admissionDate == d.admissionDate && v.dischargeDate == d.dischargeDate
    ensures v.diagnosis == d.diagnosis && v.dischargeType == d.dischargeType
    ensures v.deleted == d.deleted && v.visitType == d.visitType
  {
    HospitalVisit(d.person, d.patient, d.disease, d.ward, d.admissionType, d.admissionDate,
                  d.dischargeDate, d.diagnosis, d.dischargeType, d.deleted, d.visitType)
  }

  /** What the constructor loads: the disease lists by type code and the
      wards by ward code. */
  function Loaded(diseasesOfType: string -> seq<Disease>, findWard: string -> Ward,
                  admissionTypes: seq<AdmissionType>, dischargeTypes: seq<DischargeType>): HospitalData
  {
    HospitalData(diseasesOfType(ALL_OTHER), diseasesOfType(MATERNAL),
                 diseasesOfType(NON_COMMUNICABLE), diseasesOfType(NOTIFIABLE),
                 diseasesOfType(INFECTIOUS_COMMUNICABLE),
                 findWard(CHILDREN_WARD), findWard(FEMALE_WARD), findWard(MALE_WARD),
                 findWard(MATERNITY_WARD), admissionTypes, dischargeTypes)
  }

  class DefaultHospitalVisitProvider {
    var person: Option<Person>
    var patient: Option<Patient>
    var disease: Option<Disease>
    var ward: Option<Ward>
    var admissionType: Option<AdmissionType>
    var admissionDate: Option<DateTime>
    var dischargeDate: Option<DateTime>
    var diagnosis: Option<Disease>
    var dischargeType: Option<DischargeType>
    var deleted: char
    var visitType: char
    var dischargePercentage: int
    var isDischarged: bool

    const rng: RandomSource
    const now: DateTime
    const data: HospitalData

    /** The provider's fields as one value. */
    ghost function Fields(): VisitDraft
      reads this
    {
      VisitDraft(person, patient, disease, ward, admissionType, admissionDate, dischargeDate,
                 diagnosis, dischargeType, deleted, visitType, dischargePercentage, isDischarged)
    }

    constructor(rng: RandomSource, now: DateTime, data: HospitalData)
      ensures this.rng == rng && this.now == now && this.data == data
      ensures Fields() == EMPTY_VISIT
    {
      this.rng := rng;
      this.now := now;
      this.data := data;
      person, patient, disease, ward, admissionType := None, None, None, None, None;
      admissionDate, dischargeDate, diagnosis, dischargeType := None, None, None, None;
      deleted, visitType, dischargePercentage, isDischarged := '\0', '\0', 0, false;
    }

    /** The injected constructor: the overrides applied in turn, then the
        hospital's lists and wards loaded. */
    static method Create(rng: RandomSource, now: DateTime,
                         diseasesOfType: string -> seq<Disease>, findWard: string -> Ward,
                         admissionTypes: seq<AdmissionType>, dischargeTypes: seq<DischargeType>,
                         properties: seq<HospitalVisitProperty>)
      returns (p: DefaultHospitalVisitProvider)
      ensures fresh(p) && p.rng == rng && p.now == now
      ensures p.data == Loaded(diseasesOfType, findWard, admissionTypes, dischargeTypes)
      ensures p.Fields() == OverriddenAll(EMPTY_VISIT, properties)
    {
      p := new DefaultHospitalVisitProvider(rng, now,
                                            Loaded(diseasesOfType, findWard, admissionTypes,
                                                   dischargeTypes));
      var i := 0;
      while i < |properties|
        invariant 0 <= i <= |properties|
        invariant fresh(p) && p.rng == rng && p.now == now
        invariant p.data == Loaded(diseasesOfType, findWard, admissionTypes, dischargeTypes)
        invariant p.Fields() == OverriddenAll(EMPTY_VISIT, properties[..i])
      {
        OverriddenAllAppend(EMPTY_VISIT, properties[..i], [properties[i]]);
        assert properties[..i + 1] == properties[..i] + [properties[i]];
        p.Apply(properties[i]);
        i := i + 1;
      }
      assert properties[..i] == properties;
    }

    /** HospitalVisitProperty.apply: the one setter the override calls. */
    method Apply(p: HospitalVisitProperty)
      modifies this
      ensures Fields() == Overridden(old(Fields()), p)
    {
      match p
      case WithName(v) => SetPerson(v);
      case WithPatient(v) => SetPatient(v);
      case WithPerson(v) => SetPerson(v);
      case WithDisease(v) => SetDisease(v);
      case WithWard(v) => SetWard(v);
      case WithDischargePercentage(v) => SetDischargePercentage(v);
      case WithDischarged(v) => SetDischarged(v);
    }

    /** get(): the admission steps, then the discharge steps, then the two
        flags; the first exception ends the call. */
    method Get() returns (r: Result<HospitalVisit>, ghost admissionDays: int,
                          ghost dischargeDraw: int)
      requires ValidDateTime(now)
      requires admissionDate.Some? ==> ValidDateTime(admissionDate.value)
      modifies this, rng
      ensures Fields() == old(Fields()).(disease := disease, ward := ward,
                                         admissionType := admissionType,
                                         admissionDate := admissionDate,
                                         dischargeDate := dischargeDate, diagnosis := diagnosis,
                                         dischargeType := dischargeType, deleted := deleted,
                                         visitType := visitType, isDischarged := isDischarged)
      ensures PresetsKept(old(Fields()), Fields())
      ensures r.Success? ==> r.value == Built(Fields()) && deleted == 'N' && visitType == 'N'
      ensures r.Success? ==>
                AdmissionDone(data, now, old(Fields()), Fields(), admissionDays)
                && DischargeDone(data, now, old(Fields()), Fields(), dischargeDraw)
      ensures r.Failure? ==> r.error == NullPointer || r.error == BadRange
      ensures (old(admissionDate).None? && person.Some? && person.value.age.Some?
               && ListsNonEmpty(data)) ==> r.Success?
    {
      ghost var before := Fields();
      var o;
      o, admissionDays, dischargeDraw := Generate();
      if o.Fail? {
        return Failure(o.error), admissionDays, dischargeDraw;
      }
      ghost var generated := Fields();
      deleted := 'N';
      visitType := 'N';
      FlagsLeaveSteps(data, now, before, generated, Fields(), admissionDays, dischargeDraw);
      r := Success(HospitalVisit(person, patient, disease, ward, admissionType, admissionDate,
                                 dischargeDate, diagnosis, dischargeType, deleted, visitType));
    }

    /** The generating steps of get(): admission, then discharge. */
    method Generate() returns (o: Outcome, ghost admissionDays: int, ghost dischargeDraw: int)
      requires ValidDateTime(now)
      requires admissionDate.Some? ==> ValidDateTime(admissionDate.value)
      modifies this, rng
      ensures Fields() == old(Fields()).(disease := disease, ward := ward,
                                         admissionType := admissionType,
                                         admissionDate := admissionDate,
                                         dischargeDate := dischargeDate, diagnosis := diagnosis,
                                         dischargeType := dischargeType,
                                         isDischarged := isDischarged)
      ensures PresetsKept(old(Fields()), Fields())
      ensures o.Pass? ==>
                AdmissionDone(data, now, old(Fields()), Fields(), admissionDays)
                && DischargeDone(data, now, old(Fields()), Fields(), dischargeDraw)
      ensures o.Fail? ==> o.error == NullPointer || o.error == BadRange
      ensures (old(admissionDate).None? && person.Some? && person.value.age.Some?
               && ListsNonEmpty(data)) ==> o.Pass?
    {
      dischargeDraw := 0;
      ghost var before := Fields();
      o, admissionDays := Admit();
      if o.Fail? {
        return;
      }
      ghost var admitted := Fields();
      if old(admissionDate).None? {
        AdmissionLeavesRoom(now, admissionDays, admissionDate.value);
      }
      o, dischargeDraw := Discharge();
      PresetsKeptTransitive(before, admitted, Fields());
      if o.Fail? {
        return;
      }
      AdmissionDoneFrame(data, now, before, admitted, Fields(), admissionDays);
      DischargeDoneFrame(data, now, before, admitted, Fields(), dischargeDraw);
    }

    /** The first four steps of get(): disease, ward, admission type and
        admission date. */
    method Admit() returns (o: Outcome, ghost days: int)
      requires ValidDateTime(now)
      requires admissionDate.Some? ==> ValidDateTime(admissionDate.value)
      modifies this, rng
      ensures Fields() == old(Fields()).(disease := disease, ward := ward,
                                         admissionType := admissionType,
                                         admissionDate := admissionDate)
      ensures PresetsKept(old(Fields()), Fields())
      ensures o.Pass? ==> AdmissionDone(data, now, old(Fields()), Fields(), days)
      ensures o.Fail? ==> o.error == NullPointer || o.error == BadRange
      ensures (person.Some? && person.value.age.Some? && ListsNonEmpty(data)) ==> o.Pass?
    {
      days := 0;
      ghost var coin, group, drawn;
      o, coin, group, drawn := GenerateDisease();
      if o.Fail? {
        return;
      }
      if old(disease).None? {
        DrawnDiseaseGenerated(data, IsFemale(person.value), coin, group, drawn);
      }
      o := GenerateWard();
      if o.Fail? {
        return;
      }
      o := GenerateAdmissionType();
      if o.Fail? {
        return;
      }
      days := GenerateAdmissionDate();
    }

    /** The last steps of get(): the discharge date and, for a discharged
        visit, the diagnosis and the discharge type. */
    method Discharge() returns (o: Outcome, ghost draw: int)
      requires ValidDateTime(now) && admissionDate.Some? && ValidDateTime(admissionDate.value)
      modifies this, rng
      ensures Fields() == old(Fields()).(dischargeDate := dischargeDate,
                                         isDischarged := isDischarged, diagnosis := diagnosis,
                                         dischargeType := dischargeType)
      ensures PresetsKept(old(Fields()), Fields())
      ensures !isDischarged ==> o.Pass?
      ensures o.Pass? ==> DischargeDone(data, now, old(Fields()), Fields(), draw)
      ensures o.Fail? ==> o.error == NullPointer || o.error == BadRange
      ensures (DischargeRoom(admissionDate.value, now) && person.Some? && ListsNonEmpty(data)) ==>
                o.Pass?
    {
      o, draw := GenerateDischargeDate();
      if o.Fail? || !isDischarged {
        return;
      }
      ghost var coin, group, drawn;
      o, coin, group, drawn := GenerateDiagnosis();
      if o.Fail? {
        return;
      }
      if old(diagnosis).None? {
        DrawnDiseaseGenerated(data, IsFemale(person.value), coin, group, drawn);
      }
      o := GenerateDischargeType();
    }

    /** generateDisease: a preset disease is kept; otherwise the person's
        sex decides whether a maternal disease is drawn first, and a null
        person throws. */
    method GenerateDisease() returns (o: Outcome, ghost coin: bool, ghost group: int,
                                      ghost drawn: Result<Disease>)
      modifies this, rng
      ensures Fields() == old(Fields()).(disease := disease)
      ensures old(disease).Some? ==> o == Pass && disease == old(disease)
      ensures old(disease).None? && person.None? ==> o == Fail(NullPointer)
      ensures old(disease).None? && person.Some? ==>
                DiseaseDrawn(data, IsFemale(person.value), coin, group, drawn)
                && (drawn.Success? ==> o == Pass && disease == Some(drawn.value))
                && (drawn.Failure? ==> o == Fail(drawn.error))
    {
      coin, group, drawn := false, 0, Failure(NullPointer);
      if disease.Some? {
        return Pass, coin, group, drawn;
      }
      if person.None? {
        return Fail(NullPointer), coin, group, drawn;
      }
      var r;
      r, coin, group := DrawDisease(rng, data, IsFemale(person.value));
      drawn := r;
      if r.Failure? {
        return Fail(r.error), coin, group, drawn;
      }
      disease := Some(r.value);
      o := Pass;
    }

    /** generateWard: a preset ward is kept; otherwise the person's age and
        sex pick one of the four wards, and a null person or a null age
        throws. */
    method GenerateWard() returns (o: Outcome)
      modifies this
      ensures Fields() == old(Fields()).(ward := ward)
      ensures old(ward).Some? ==> o == Pass && ward == old(ward)
      ensures old(ward).None? && person.None? ==> o == Fail(NullPointer)
      ensures old(ward).None? && person.Some? ==>
                (WardOf(data, person.value).Success? ==>
                   o == Pass && ward == Some(WardOf(data, person.value).value))
                && (WardOf(data, person.value).Failure? ==> o == Fail(NullPointer))
    {
      if ward.Some? {
        return Pass;
      }
      if person.None? || person.value.age.None? {
        return Fail(NullPointer);
      }
      var p := person.value;
      if p.age.value <= 12 {
        ward := Some(data.childrenWard);
      } else if IsMale(p) {
        ward := Some(data.maleWard);
      } else if p.age.value >= 18 && p.age.value <= 39 {
        ward := Some(data.maternityWard);
      } else {
        ward := Some(data.femaleWard);
      }
      o := Pass;
    }

    /** generateAdmissionType: a preset type is kept; otherwise one is drawn
        from the hospital's list. */
    method GenerateAdmissionType() returns (o: Outcome)
      modifies this, rng
      ensures Fields() == old(Fields()).(admissionType := admissionType)
      ensures old(admissionType).Some? ==> o == Pass && admissionType == old(admissionType)
      ensures old(admissionType).None? ==>
                (o.Pass? <==> data.admissionTypes != [])
                && (o.Pass? ==> admissionType.Some? && admissionType.value in data.admissionTypes)
                && (o.Fail? ==> o.error == BadRange)
    {
      if admissionType.Some? {
        return Pass;
      }
      var r := rng.RandomElement(data.admissionTypes);
      if r.Failure? {
        return Fail(r.error);
      }
      admissionType := Some(r.value);
      o := Pass;
    }

    /** generateAdmissionDate: a preset date is kept; otherwise midnight of a
        day between 2 * days - 1 and days days ago, `days` drawn in [4, 20]. */
    method GenerateAdmissionDate() returns (ghost days: int)
      requires ValidDateTime(now)
      modifies this, rng
      ensures Fields() == old(Fields()).(admissionDate := admissionDate)
      ensures admissionDate.Some?
      ensures old(admissionDate).Some? ==> admissionDate == old(admissionDate)
      ensures old(admissionDate).None? ==>
                4 <= days <= 20 && AdmissionWindow(now, days, admissionDate.value)
    {
      days := 0;
      if admissionDate.Some? {
        return;
      }
      var t;
      t, days := DrawAdmissionDate(rng, now);
      admissionDate := Some(t);
    }

    /** generateDischargeDate: a visit without an admission date is not
        discharged; otherwise it is discharged exactly when a draw in
        [1, 100] is at most the percentage, whatever the flag held before,
        and then gets a discharge date after the admission day. */
    method GenerateDischargeDate() returns (o: Outcome, ghost draw: int)
      requires ValidDateTime(now)
      requires admissionDate.Some? ==> ValidDateTime(admissionDate.value)
      modifies this, rng
      ensures Fields() == old(Fields()).(dischargeDate := dischargeDate,
                                         isDischarged := isDischarged)
      ensures admissionDate.None? ==> o == Pass && !isDischarged && dischargeDate == old(dischargeDate)
      ensures admissionDate.Some? ==>
                1 <= draw <= 100 && draw == 1 + rng.draws(old(rng.position)) % 100
                && (isDischarged <==> draw <= dischargePercentage)
      ensures admissionDate.Some? && !isDischarged ==> o == Pass && dischargeDate == old(dischargeDate)
      ensures admissionDate.Some? && isDischarged ==>
                (o.Pass? <==> DischargeRoom(admissionDate.value, now))
                && (o.Pass? ==> dischargeDate.Some?
                                && DischargeWindow(admissionDate.value, now, dischargeDate.value))
                && (o.Fail? ==> o.error == BadRange)
    {
      draw := 0;
      if admissionDate.None? {
        isDischarged := false;
        return Pass, draw;
      }
      var d := rng.RandomBetween(1, 100);
      draw := d;
      if d > dischargePercentage {
        isDischarged := false;
        return Pass, draw;
      }
      isDischarged := true;
      var r := DrawDischargeDate(rng, admissionDate.value, now);
      if r.Failure? {
        return Fail(r.error), draw;
      }
      dischargeDate := Some(r.value);
      o := Pass;
    }

    /** generateDiagnosis: nothing for a visit not discharged or with a
        preset diagnosis; otherwise drawn as the disease is. */
    method GenerateDiagnosis() returns (o: Outcome, ghost coin: bool, ghost group: int,
                                        ghost drawn: Result<Disease>)
      modifies this, rng
      ensures Fields() == old(Fields()).(diagnosis := diagnosis)
      ensures !isDischarged || old(diagnosis).Some? ==> o == Pass && diagnosis == old(diagnosis)
      ensures isDischarged && old(diagnosis).None? && person.None? ==> o == Fail(NullPointer)
      ensures isDischarged && old(diagnosis).None? && person.Some? ==>
                DiseaseDrawn(data, IsFemale(person.value), coin, group, drawn)
                && (drawn.Success? ==> o == Pass && diagnosis == Some(drawn.value))
                && (drawn.Failure? ==> o == Fail(drawn.error))
    {
      coin, group, drawn := false, 0, Failure(NullPointer);
      if !isDischarged || diagnosis.Some? {
        return Pass, coin, group, drawn;
      }
      if person.None? {
        return Fail(NullPointer), coin, group, drawn;
      }
      var r;
      r, coin, group := DrawDisease(rng, data, IsFemale(person.value));
      drawn := r;
      if r.Failure? {
        return Fail(r.error), coin, group, drawn;
      }
      diagnosis := Some(r.value);
      o := Pass;
    }

    /** generateDischargeType: nothing for a visit not discharged or with a
        preset type; otherwise one drawn from the hospital's list. */
    method GenerateDischargeType() returns (o: Outcome)
      modifies this, rng
      ensures Fields() == old(Fields()).(dischargeType := dischargeType)
      ensures !isDischarged || old(dischargeType).Some? ==>
                o == Pass && dischargeType == old(dischargeType)
      ensures isDischarged && old(dischargeType).None? ==>
                (o.Pass? <==> data.dischargeTypes != [])
                && (o.Pass? ==> dischargeType.Some? && dischargeType.value in data.dischargeTypes)
                && (o.Fail? ==> o.error == BadRange)
    {
      if !isDischarged || dischargeType.Some? {
        return Pass;
      }
      var r := rng.RandomElement(data.dischargeTypes);
      if r.Failure? {
        return Fail(r.error);
      }
      dischargeType := Some(r.value);
      o := Pass;
    }

    method SetDisease(v: Disease)
      modifies this
      ensures Fields() == old(Fields()).(disease := Some(v))
    {
      disease := Some(v);
    }

    method SetWard(v: Ward)
      modifies this
      ensures Fields() == old(Fields()).(ward := Some(v))
    {
      ward := Some(v);
    }

    method SetAdmissionType(v: AdmissionType)
      modifies this
      ensures Fields() == old(Fields()).(admissionType := Some(v))
    {
      admissionType := Some(v);
    }

    method SetPatient(v: Patient)
      modifies this
      ensures Fields() == old(Fields()).(patient := Some(v))
    {
      patient := Some(v);
    }

    method SetPerson(v: Person)
      modifies this
      ensures Fields() == old(Fields()).(person := Some(v))
    {
      person := Some(v);
    }

    method SetAdmissionDate(v: DateTime)
      modifies this
      ensures Fields() == old(Fields()).(admissionDate := Some(v))
    {
      admissionDate := Some(v);
    }

    method SetDischargePercentage(v: int)
      modifies this
      ensures Fields() == old(Fields()).(dischargePercentage := v)
    {
      dischargePercentage := v;
    }

    /** isDischarged(boolean): sets the flag generateDischargeDate recomputes. */
    method SetDischarged(v: bool)
      modifies this
      ensures Fields() == old(Fields()).(isDischarged := v)
    {
      isDischarged := v;
    }

    method SetDiagnosis(v: Disease)
      modifies this
      ensures Fields() == old(Fields()).(diagnosis := Some(v))
    {
      diagnosis := Some(v);
    }

    method SetDischargeType(v: DischargeType)
      modifies this
      ensures Fields() == old(Fields()).(dischargeType := Some(v))
    {
      dischargeType := Some(v);
    }
  }
}
