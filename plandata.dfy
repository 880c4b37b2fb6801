/** The plan snapshot the checker reads (the Eclipse objects reduced to plain records),
    the findings it reports, and the selections over beams and reference points that
    several checks share. */
module PlanData {
  import opened Wrappers
  import opened Text
  import opened Geometry

  // ---------------------------------------------------------------------------
  // Input records

  datatype RefPoint = RefPoint(isPrimary: bool, location: Option<Vec3>)

  /** A beam; only its first control point is ever read. `hasMlc` is MLC != null.
      `machineId` is ExternalBeam.Id, `energy` EnergyModeDisplayName. */
  datatype Beam = Beam(
    id: string, isSetup: bool, machineId: string,
    hasMlc: bool, mlcPlanType: int, energy: string,
    doseRate: int, weight: real, isocenter: Vec3, ssd: real, bolusCount: nat,
    firstControlPoint: ControlPoint, refPoints: seq<RefPoint>)

  /** A structure; `containsUserOrigin` is IsPointInsideSegment(image.UserOrigin). */
  datatype Structure = Structure(id: string, dicomType: string, centerX: real, containsUserOrigin: bool)

  /** A point in time, compared field by field. */
  datatype Stamp = Stamp(year: int, month: int, day: int, secondOfDay: int)

  predicate ValidStamp(t: Stamp) {
    1 <= t.year <= 9999 && 1 <= t.month <= 12 && 1 <= t.day <= 31 && 0 <= t.secondOfDay
  }

  predicate Later(a: Stamp, b: Stamp) {
    a.year > b.year ||
    (a.year == b.year && (a.month > b.month ||
    (a.month == b.month && (a.day > b.day ||
    (a.day == b.day && a.secondOfDay > b.secondOfDay)))))
  }

  predicate SameDay(a: Stamp, b: Stamp) {
    a.year == b.year && a.month == b.month && a.day == b.day
  }

  /** An image series: its study's creation time and comment, and the imaging device. */
  datatype Series = Series(created: Stamp, deviceId: string, comment: string)

  /** The planning image; `huAtRefPoint` is the middle sample of GetImageProfile taken
      across the primary reference point. */
  datatype Image = Image(id: string, userOrigin: Vec3, series: Series, huAtRefPoint: real)

  datatype StructureSet = StructureSet(image: Image, structures: seq<Structure>)

  /** A plan. None stands for a missing value or NaN: fractionCount (int?),
      dosePerFraction and normalizationPoint (NaN), heterogeneity (TryGetValue failed). */
  datatype Plan = Plan(
    id: string, courseId: string, hasDose: bool,
    structureSet: Option<StructureSet>,
    orientation: int, normalizationMethod: string,
    fractionCount: Option<int>, dosePerFraction: Option<real>, doseAtPrimaryRefPoint: real,
    normalizationPoint: Option<Vec3>,
    beams: seq<Beam>,
    photonModel: string, electronModel: string, heterogeneity: Option<string>)

  // ---------------------------------------------------------------------------
  // Findings

  /** The display type of a finding (the second element of a result pair). */
  datatype Kind = Error | Normal | Head | Important | Machine

  /** One constructor per distinct finding of CheckPlan; parameters carry the values
      the message text is formatted from. */
  datatype Message =
    | OrientationNotHfs
    | CourseIdFormat
    | PlanIdFormat
    | PlanIdCourseMismatch
    | PlanIdIs(planId: string)
    | TooManyFractions
    | DoseTooSmall
    | CtOriginNotZero(origin: Vec3)
    | CtDateMissing
    | CtCreationDate(year: int, month: int, day: int)
    | CtNotLatest
    | CtToRedTable(device: string)
    | ElectronWeightNotOne
    | ElectronNormalization
    | TreatmentRoomHeader
    | Room(name: string)
    | NoCouch
    | CouchCenter(xCm: real)
    | UnknownMachine
    | FieldHeader(beamId: string)
    | CheckX1 | CheckX2 | CheckY1 | CheckY2
    | DoseRateIs(rate: int)
    | ZeroMu(beamId: string)
    | FieldOk
    | FieldOkNoMlc(beamId: string)
    | FieldOkElectron(beamId: string)
    | DynamicArc(beamId: string)
    | DynamicMlc(beamId: string)
    | FieldsEnd
    | DosePerFractionHeader | DosePerFractionValue(cGy: real)
    | FractionsHeader | FractionsValue(count: int)
    | TotalDoseHeader | TotalDoseValue(totalCGy: real)
    | MultipleIsocenters
    | CtOriginOutsideBody
    | CtOriginFar
    | CheckNormalizationMode
    | IsoRefDiffer
    | IsoRefSame
    | RefLocationNotNeeded
    | RefPointNearEdge(nearBeamId: string)
    | RefPointOutside(outsideBeamId: string)
    | LowHu
    | Algorithm(model: string)
    | Heterogeneity(setting: Option<string>)
    | BolusNotLinked
    | BolusLinked
    | SsdNot100
    | SsdBolusNot1005
    | ProbablyOk

  /** The type each finding is reported with. */
  function KindOf(m: Message): Kind {
    match m
    case PlanIdIs(_) | CtCreationDate(_, _, _) | CtToRedTable(_) | CouchCenter(_)
       | IsoRefSame | Algorithm(_) | Heterogeneity(_) | BolusLinked | ProbablyOk => Normal
    case TreatmentRoomHeader | FieldHeader(_) | FieldOk | FieldOkNoMlc(_) | FieldOkElectron(_)
       | DynamicArc(_) | DynamicMlc(_) | FieldsEnd
       | DosePerFractionHeader | FractionsHeader | TotalDoseHeader => Head
    case DosePerFractionValue(_) | FractionsValue(_) | TotalDoseValue(_) => Important
    case Room(_) => Machine
    case _ => Error
  }

  /** The warnings whose emission goes together with fAllOK = false. */
  predicate ClearsAllOk(m: Message) {
    m.OrientationNotHfs? || m.TooManyFractions? || m.DoseTooSmall? || m.CtOriginNotZero? ||
    m.CtDateMissing? || m.CtNotLatest? || m.NoCouch? ||
    m.CheckX1? || m.CheckX2? || m.CheckY1? || m.CheckY2? || m.DoseRateIs? || m.ZeroMu? ||
    m.MultipleIsocenters? || m.CtOriginOutsideBody? || m.CtOriginFar? ||
    m.CheckNormalizationMode? || m.IsoRefDiffer? || m.BolusNotLinked? ||
    m.SsdNot100? || m.SsdBolusNot1005?
  }

  /** Every warning that clears fAllOK is reported as an ERROR; the converse fails,
      since some ERROR findings leave fAllOK alone. */
  lemma ClearingIsError(m: Message)
    ensures ClearsAllOk(m) ==> KindOf(m) == Error
    ensures !ClearsAllOk(m) && KindOf(m) == Error ==>
      m in {CourseIdFormat, PlanIdFormat, PlanIdCourseMismatch, ElectronWeightNotOne,
            ElectronNormalization, UnknownMachine, RefLocationNotNeeded, LowHu} ||
      m.RefPointNearEdge? || m.RefPointOutside?
  {
  }

  /** No finding of ms clears fAllOK (stated recursively, see NoClearingMeans). */
  predicate NoClearing(ms: seq<Message>) {
    |ms| == 0 || (NoClearing(ms[..|ms| - 1]) && !ClearsAllOk(ms[|ms| - 1]))
  }

  lemma {:induction false} NoClearingMeans(ms: seq<Message>)
    ensures NoClearing(ms) <==> forall i :: 0 <= i < |ms| ==> !ClearsAllOk(ms[i])
  {
    if |ms| > 0 {
      var pre := ms[..|ms| - 1];
      NoClearingMeans(pre);
      assert forall i :: 0 <= i < |pre| ==> pre[i] == ms[i];
    }
  }

  /** Appending two parts in a row appends their concatenation, and the concatenation
      clears fAllOK exactly when one of the parts does. */
  lemma AppendStep(r: seq<Message>, a: seq<Message>, b: seq<Message>)
    ensures (r + a) + b == r + (a + b)
    ensures NoClearing(a + b) <==> NoClearing(a) && NoClearing(b)
  {
    NoClearingAppend(a, b);
  }

  lemma NoClearingAppend(a: seq<Message>, b: seq<Message>)
    ensures NoClearing(a + b) <==> NoClearing(a) && NoClearing(b)
  {
    NoClearingMeans(a);
    NoClearingMeans(b);
    NoClearingMeans(a + b);
    if NoClearing(a) && NoClearing(b) {
      forall i | 0 <= i < |a + b| ensures !ClearsAllOk((a + b)[i]) {
        if i >= |a| { assert (a + b)[i] == b[i - |a|]; }
      }
    }
    if NoClearing(a + b) {
      forall i | 0 <= i < |a| ensures !ClearsAllOk(a[i]) {
        assert (a + b)[i] == a[i];
      }
      forall i | 0 <= i < |b| ensures !ClearsAllOk(b[i]) {
        assert (a + b)[|a| + i] == b[i];
      }
    }
  }

  /** The block of CheckPlan that emits a message, numbered in source order. */
  function SectionOf(m: Message): nat {
    match m
    case OrientationNotHfs => 0
    case CourseIdFormat | PlanIdFormat | PlanIdCourseMismatch | PlanIdIs(_) => 1
    case TooManyFractions | DoseTooSmall => 2
    case CtOriginNotZero(_) => 3
    case CtDateMissing | CtCreationDate(_, _, _) => 4
    case CtNotLatest => 5
    case CtToRedTable(_) => 6
    case ElectronWeightNotOne | ElectronNormalization => 7
    case TreatmentRoomHeader | Room(_) | NoCouch | CouchCenter(_) | UnknownMachine => 8
    case FieldHeader(_) | CheckX1 | CheckX2 | CheckY1 | CheckY2 | DoseRateIs(_) | ZeroMu(_)
       | FieldOk | FieldOkNoMlc(_) | FieldOkElectron(_) | DynamicArc(_) | DynamicMlc(_) => 9
    case FieldsEnd | DosePerFractionHeader | DosePerFractionValue(_) | FractionsHeader
       | FractionsValue(_) | TotalDoseHeader | TotalDoseValue(_) => 10
    case MultipleIsocenters | CtOriginOutsideBody | CtOriginFar => 11
    case CheckNormalizationMode => 12
    case IsoRefDiffer | IsoRefSame | RefLocationNotNeeded => 13
    case RefPointNearEdge(_) | RefPointOutside(_) => 14
    case LowHu => 15
    case Algorithm(_) => 16
    case Heterogeneity(_) => 17
    case BolusNotLinked | BolusLinked => 18
    case SsdNot100 | SsdBolusNot1005 => 19
    case ProbablyOk => 20
  }

  /** Every message of ms comes from block s. */
  predicate AllIn(ms: seq<Message>, s: nat) {
    forall i :: 0 <= i < |ms| ==> SectionOf(ms[i]) == s
  }

  /** The findings are grouped by block, in source order, and none comes after block s. */
  predicate InSourceOrder(ms: seq<Message>, s: nat) {
    (forall i, j :: 0 <= i < j < |ms| ==> SectionOf(ms[i]) <= SectionOf(ms[j])) &&
    (forall i :: 0 <= i < |ms| ==> SectionOf(ms[i]) <= s)
  }

  lemma InSourceOrderAppend(a: seq<Message>, b: seq<Message>, s0: nat, s: nat)
    requires InSourceOrder(a, s0) && s0 <= s && AllIn(b, s)
    ensures InSourceOrder(a + b, s)
  {
    var c := a + b;
    forall i | 0 <= i < |c| ensures SectionOf(c[i]) <= s {
      if i >= |a| { assert c[i] == b[i - |a|]; } else { assert c[i] == a[i]; }
    }
    forall i, j | 0 <= i < j < |c| ensures SectionOf(c[i]) <= SectionOf(c[j]) {
      if j < |a| {
        assert c[i] == a[i] && c[j] == a[j];
      } else if i < |a| {
        assert c[i] == a[i] && c[j] == b[j - |a|];
      } else {
        assert c[i] == b[i - |a|] && c[j] == b[j - |a|];
      }
    }
  }

  /** How a CheckPlan run ends: an aborting message, or the findings and fAllOK.
      NoFields is the runtime error of reading the first field of a plan that has none. */
  datatype FatalReason =
    | NotCalculated | NoStructureSet | NoFractionCount | NoDosePerFraction
    | ElectronMultipleFields | NoFields | NoRefPoints | NoPrimaryRefPoint
    | PrimaryNotNormalizationPoint | PrimaryHasNoLocation

  datatype Outcome = Fatal(reason: FatalReason) | Report(results: seq<Message>, allOk: bool)

  /** How often a message occurs in a list of findings. */
  function Occurrences(ms: seq<Message>, m: Message): (n: nat)
    ensures n <= |ms|
    ensures n == 0 <==> m !in ms
  {
    if |ms| == 0 then 0
    else Occurrences(ms[..|ms| - 1], m) + (if ms[|ms| - 1] == m then 1 else 0)
  }

  lemma OccurrencesAppend(a: seq<Message>, b: seq<Message>, m: Message)
    ensures Occurrences(a + b, m) == Occurrences(a, m) + Occurrences(b, m)
    decreases |b|
  {
    if |b| > 0 {
      assert (a + b)[..|a + b| - 1] == a + b[..|b| - 1];
      OccurrencesAppend(a, b[..|b| - 1], m);
    } else {
      assert a + b == a;
    }
  }

  lemma AllInAppend(a: seq<Message>, b: seq<Message>, s: nat)
    requires AllIn(a, s) && AllIn(b, s)
    ensures AllIn(a + b, s)
  {
    forall i | 0 <= i < |a + b| ensures SectionOf((a + b)[i]) == s {
      if i >= |a| { assert (a + b)[i] == b[i - |a|]; }
    }
  }

  /** The findings of consecutive blocks of CheckPlan, one block after the other. */
  function Flatten(parts: seq<seq<Message>>): seq<Message> {
    if |parts| == 0 then [] else Flatten(parts[..|parts| - 1]) + parts[|parts| - 1]
  }

  lemma FlattenSnoc(parts: seq<seq<Message>>, p: seq<Message>)
    ensures Flatten(parts + [p]) == Flatten(parts) + p
  {
    assert (parts + [p])[..|parts|] == parts;
  }

  lemma {:induction false} FlattenAppend(a: seq<seq<Message>>, b: seq<seq<Message>>)
    ensures Flatten(a + b) == Flatten(a) + Flatten(b)
  {
    if |b| > 0 {
      var pre := b[..|b| - 1];
      assert (a + b)[..|a + b| - 1] == a + pre;
      FlattenAppend(a, pre);
      assert Flatten(a) + Flatten(pre) + b[|b| - 1] == Flatten(a) + (Flatten(pre) + b[|b| - 1]);
    } else {
      assert a + b == a;
    }
  }

  /** Block k of a run contributes only findings of section k. */
  predicate Sectioned(parts: seq<seq<Message>>) {
    forall k :: 0 <= k < |parts| ==> AllIn(parts[k], k)
  }

  /** Block k of parts contributes only findings of section s + k. */
  predicate SectionedFrom(parts: seq<seq<Message>>, s: nat) {
    forall k :: 0 <= k < |parts| ==> AllIn(parts[k], s + k)
  }

  lemma SectionedJoin(a: seq<seq<Message>>, b: seq<seq<Message>>, s: nat)
    requires SectionedFrom(a, s) && SectionedFrom(b, s + |a|)
    ensures SectionedFrom(a + b, s)
  {
    forall k | 0 <= k < |a + b| ensures AllIn((a + b)[k], s + k) {
      if k < |a| {
        assert (a + b)[k] == a[k];
      } else {
        assert (a + b)[k] == b[k - |a|];
      }
    }
  }

  lemma SectionedPrefix(parts: seq<seq<Message>>)
    requires Sectioned(parts) && |parts| > 0
    ensures Sectioned(parts[..|parts| - 1])
  {
    var pre := parts[..|parts| - 1];
    forall k | 0 <= k < |pre| ensures AllIn(pre[k], k) {
      assert pre[k] == parts[k];
    }
  }

  /** Concatenating sectioned blocks keeps the findings in source order. */
  lemma {:induction false} FlattenInSourceOrder(parts: seq<seq<Message>>)
    requires Sectioned(parts) && |parts| > 0
    ensures InSourceOrder(Flatten(parts), |parts| - 1)
  {
    var n := |parts| - 1;
    var pre := parts[..n];
    assert AllIn(parts[n], n);
    if n == 0 {
      assert Flatten(pre) == [];
      InSourceOrderAppend([], parts[n], 0, 0);
    } else {
      SectionedPrefix(parts);
      FlattenInSourceOrder(pre);
      InSourceOrderAppend(Flatten(pre), parts[n], n - 1, n);
    }
  }

  /** A block holds no finding of another section. */
  lemma NotInOtherSection(ms: seq<Message>, s: nat, m: Message)
    requires AllIn(ms, s) && SectionOf(m) != s
    ensures m !in ms
  {
  }

  /** A finding can only come from the block of its own section. */
  lemma FlattenOccurrences(parts: seq<seq<Message>>, m: Message)
    requires Sectioned(parts)
    ensures Occurrences(Flatten(parts), m) ==
      if SectionOf(m) < |parts| then Occurrences(parts[SectionOf(m)], m) else 0
  {
    var s := SectionOf(m);
    forall k | 0 <= k < |parts| && k != s ensures m !in parts[k] {
      NotInOtherSection(parts[k], k, m);
    }
    if s < |parts| {
      FlattenOccurrencesOnly(parts, m, s);
    } else {
      FlattenOccurrencesNone(parts, m);
    }
  }

  /** A finding that only block s can hold occurs in the run as often as in block s. */
  lemma {:induction false} FlattenOccurrencesOnly(parts: seq<seq<Message>>, m: Message, s: nat)
    requires s < |parts|
    requires forall k :: 0 <= k < |parts| && k != s ==> m !in parts[k]
    ensures Occurrences(Flatten(parts), m) == Occurrences(parts[s], m)
  {
    var n := |parts| - 1;
    var pre := parts[..n];
    OccurrencesAppend(Flatten(pre), parts[n], m);
    if s < n {
      FlattenOccurrencesOnly(pre, m, s);
      assert pre[s] == parts[s];
    } else {
      FlattenOccurrencesNone(pre, m);
    }
  }

  /** A finding no block holds does not occur in the run. */
  lemma {:induction false} FlattenOccurrencesNone(parts: seq<seq<Message>>, m: Message)
    requires forall k :: 0 <= k < |parts| ==> m !in parts[k]
    ensures Occurrences(Flatten(parts), m) == 0
  {
    if |parts| > 0 {
      var n := |parts| - 1;
      var pre := parts[..n];
      assert forall k :: 0 <= k < n ==> pre[k] == parts[k];
      FlattenOccurrencesNone(pre, m);
      OccurrencesAppend(Flatten(pre), parts[n], m);
    }
  }

  /** fAllOK survives a run of blocks exactly when it survives each one. */
  lemma {:induction false} FlattenNoClearing(parts: seq<seq<Message>>)
    ensures NoClearing(Flatten(parts)) <==> forall k :: 0 <= k < |parts| ==> NoClearing(parts[k])
  {
    if |parts| > 0 {
      var n := |parts| - 1;
      var pre := parts[..n];
      FlattenNoClearing(pre);
      NoClearingAppend(Flatten(pre), parts[n]);
      assert forall k :: 0 <= k < n ==> pre[k] == parts[k];
    }
  }

  // ---------------------------------------------------------------------------
  // Selections shared by several checks

  /** The index of the first element satisfying p, or |s| when there is none. */
  function FirstWhere<T>(s: seq<T>, p: T -> bool): (k: nat)
    ensures k <= |s|
    ensures k < |s| ==> p(s[k])
    ensures forall j :: 0 <= j < k ==> !p(s[j])
  {
    if |s| == 0 then 0 else if p(s[0]) then 0 else 1 + FirstWhere(s[1..], p)
  }

  /** The index of the last element satisfying p, if any. */
  function LastWhere<T>(s: seq<T>, p: T -> bool): (r: Option<nat>)
    ensures r.Some? ==> r.value < |s| && p(s[r.value]) && forall j :: r.value < j < |s| ==> !p(s[j])
    ensures r.None? <==> forall j :: 0 <= j < |s| ==> !p(s[j])
  {
    if |s| == 0 then None
    else if p(s[|s| - 1]) then Some(|s| - 1)
    else LastWhere(s[..|s| - 1], p)
  }

  predicate IsTreatment(b: Beam) { !b.isSetup }
  predicate IsMlcTreatment(b: Beam) { !b.isSetup && b.hasMlc }
  /** A treatment field without MLC whose energy mode contains "E". */
  predicate IsElectronCandidate(b: Beam) { !b.isSetup && !b.hasMlc && Contains(b.energy, "E") }
  predicate IsPrimary(r: RefPoint) { r.isPrimary }

  /** The number of treatment (non-setup) fields. */
  function TreatmentCount(bs: seq<Beam>): (n: nat)
    ensures n <= |bs|
    ensures n == 0 <==> forall j :: 0 <= j < |bs| ==> !IsTreatment(bs[j])
  {
    if |bs| == 0 then 0 else TreatmentCount(bs[..|bs| - 1]) + (if IsTreatment(bs[|bs| - 1]) then 1 else 0)
  }

  /** The plan's type flags (PlanCheck.cs:335-349). */
  datatype PlanKinds = PlanKinds(electron: bool, imrt: bool, sbrt: bool, vmat: bool)

  /** The MLC plan type of the first treatment field with an MLC, or 0. */
  function PlanType(beams: seq<Beam>): int {
    var k := FirstWhere(beams, IsMlcTreatment);
    if k < |beams| then beams[k].mlcPlanType else 0
  }

  /** The last electron candidate met before the first treatment field with an MLC. */
  function ElectronField(beams: seq<Beam>): Option<nat> {
    LastWhere(beams[..FirstWhere(beams, IsMlcTreatment)], IsElectronCandidate)
  }

  function KindsOf(beams: seq<Beam>, volumePre: bool): (k: PlanKinds)
    ensures k.electron <==> exists j :: 0 <= j < FirstWhere(beams, IsMlcTreatment) && IsElectronCandidate(beams[j])
    ensures k.imrt <==> PlanType(beams) == 1
    ensures k.sbrt <==> PlanType(beams) == 0 && volumePre
    ensures k.vmat <==> PlanType(beams) == 3
    ensures !(k.imrt && k.vmat) && !(k.imrt && k.sbrt) && !(k.sbrt && k.vmat)
  {
    var pt := PlanType(beams);
    PlanKinds(ElectronField(beams).Some?, pt == 1, pt == 0 && volumePre, pt == 3)
  }

  /** The weight of the last electron candidate of bs, or 0. */
  function CandidateWeight(bs: seq<Beam>): real {
    if |bs| == 0 then 0.0
    else if IsElectronCandidate(bs[|bs| - 1]) then bs[|bs| - 1].weight
    else CandidateWeight(bs[..|bs| - 1])
  }

  /** The weight is that of the last electron candidate, and 0 when there is none. */
  lemma {:induction false} CandidateWeightIsLast(bs: seq<Beam>)
    ensures CandidateWeight(bs) ==
      var e := LastWhere(bs, IsElectronCandidate); if e.Some? then bs[e.value].weight else 0.0
  {
    if |bs| > 0 && !IsElectronCandidate(bs[|bs| - 1]) {
      var pre := bs[..|bs| - 1];
      CandidateWeightIsLast(pre);
      assert LastWhere(bs, IsElectronCandidate) == LastWhere(pre, IsElectronCandidate);
    }
  }

  /** The weight of the electron field that set the electron flag, or 0. */
  function ElectronWeight(beams: seq<Beam>): real {
    CandidateWeight(beams[..FirstWhere(beams, IsMlcTreatment)])
  }

  /** The reference points of the first treatment field, else those of the first field. */
  function RefPointsOf(beams: seq<Beam>): (rps: seq<RefPoint>)
    requires |beams| >= 1
    ensures (exists j :: 0 <= j < |beams| && IsTreatment(beams[j])) ==>
      rps == beams[FirstWhere(beams, IsTreatment)].refPoints
  {
    var k := FirstWhere(beams, IsTreatment);
    if k < |beams| then beams[k].refPoints else beams[0].refPoints
  }

  /** The location of the last primary reference point (the default iso is never used
      once a primary exists). */
  function PrimaryLocation(rps: seq<RefPoint>, iso: Vec3): Option<Vec3> {
    var p := LastWhere(rps, IsPrimary);
    if p.Some? then rps[p.value].location else Some(iso)
  }
}
