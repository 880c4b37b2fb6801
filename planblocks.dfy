/** The blocks of CheckPlan (PlanCheck.cs:184-785) other than the field loop. For each
    block: the findings it appends, as a function of the plan, and the method that
    appends them to `results` and lowers fAllOK the way the source does. */
module PlanBlocks {
  import opened Wrappers
  import opened Text
  import opened Geometry
  import opened PlanData
  import opened FieldChecks

  /** No VMAT, IMRT, SBRT or electron flag: the plans whose reference point is checked. */
  predicate Conventional(k: PlanKinds) { !k.electron && !k.vmat && !k.imrt && !k.sbrt }

  // ---------------------------------------------------------------------------
  // Orientation (PlanCheck.cs:226-231)

  function OrientationPart(orientation: int): seq<Message> {
    if orientation != 1 then [OrientationNotHfs] else []
  }

  method CheckOrientation(orientation: int, results: seq<Message>, allOk: bool)
    returns (results': seq<Message>, allOk': bool)
    ensures results' == results + OrientationPart(orientation)
    ensures allOk' == (allOk && NoClearing(OrientationPart(orientation)))
  {
    results', allOk' := results, allOk;
    if orientation != 1 {
      results' := results' + [OrientationNotHfs];
      allOk' := false;
    }
  }

  // ---------------------------------------------------------------------------
  // Course and plan identifiers (PlanCheck.cs:233-254)

  /** The identifier findings from the two parses: `number` is the course number and
      `lead` the plan's first number, None where the pattern does not match. */
  function IdPart(number: Option<string>, lead: Option<string>, planId: string, isPlanSum: bool): seq<Message> {
    (if number.None? then [CourseIdFormat] else []) +
    (if lead.None? then [PlanIdFormat] else if number != lead then [PlanIdCourseMismatch] else []) +
    (if isPlanSum then [PlanIdIs(planId)] else [])
  }

  function IdFindingsOf(courseId: string, planId: string, isPlanSum: bool): seq<Message> {
    IdPart(ParseCourseId(courseId), ParsePlanId(planId), planId, isPlanSum)
  }

  /** Which findings the two parses give. */
  lemma IdPartMembers(number: Option<string>, lead: Option<string>, planId: string, isPlanSum: bool)
    ensures CourseIdFormat in IdPart(number, lead, planId, isPlanSum) <==> number.None?
    ensures PlanIdFormat in IdPart(number, lead, planId, isPlanSum) <==> lead.None?
    ensures PlanIdCourseMismatch in IdPart(number, lead, planId, isPlanSum) <==> lead.Some? && number != lead
    ensures PlanIdIs(planId) in IdPart(number, lead, planId, isPlanSum) <==> isPlanSum
  {
    var a: seq<Message> := if number.None? then [CourseIdFormat] else [];
    var b: seq<Message> := if lead.None? then [PlanIdFormat] else if number != lead then [PlanIdCourseMismatch] else [];
    var c: seq<Message> := if isPlanSum then [PlanIdIs(planId)] else [];
    assert IdPart(number, lead, planId, isPlanSum) == a + b + c;
    assert forall m :: m in a + b + c <==> m in a || m in b || m in c;
  }

  /** A format error for each identifier that does not have its shape. */
  lemma IdFormatFindings(courseId: string, planId: string, isPlanSum: bool)
    ensures CourseIdFormat in IdFindingsOf(courseId, planId, isPlanSum) <==> forall n :: !CourseIdShape(courseId, n)
    ensures PlanIdFormat in IdFindingsOf(courseId, planId, isPlanSum) <==>
      forall a, b, c :: !PlanIdShape(planId, a, b, c)
    ensures PlanIdIs(planId) in IdFindingsOf(courseId, planId, isPlanSum) <==> isPlanSum
  {
    var number := ParseCourseId(courseId);
    var lead := ParsePlanId(planId);
    ParseCourseIdMeaning(courseId);
    ParsePlanIdMeaning(planId);
    IdPartMembers(number, lead, planId, isPlanSum);
    if lead.Some? {
      var b, c :| PlanIdShape(planId, lead.value, b, c);
    }
  }

  /** A mismatch error when the plan's first number is not the course number; a course
      identifier without a number never matches. */
  lemma IdMismatchFinding(courseId: string, planId: string, isPlanSum: bool)
    ensures PlanIdCourseMismatch in IdFindingsOf(courseId, planId, isPlanSum) <==>
      exists a, b, c :: PlanIdShape(planId, a, b, c) && !CourseIdShape(courseId, a)
  {
    var number := ParseCourseId(courseId);
    var lead := ParsePlanId(planId);
    ParseCourseIdMeaning(courseId);
    ParsePlanIdMeaning(planId);
    IdPartMembers(number, lead, planId, isPlanSum);
    if lead.Some? {
      var b, c :| PlanIdShape(planId, lead.value, b, c);
      if number != lead {
        assert !CourseIdShape(courseId, lead.value);
      }
    }
  }

  /** The identifier findings never clear fAllOK. */
  lemma IdPartKeepsAllOk(number: Option<string>, lead: Option<string>, planId: string, isPlanSum: bool)
    ensures NoClearing(IdPart(number, lead, planId, isPlanSum))
  {
    IdMessagesKeepAllOk(planId);
    var a := if number.None? then [CourseIdFormat] else [];
    var b := if lead.None? then [PlanIdFormat] else if number != lead then [PlanIdCourseMismatch] else [];
    var c := if isPlanSum then [PlanIdIs(planId)] else [];
    NoClearingOfShort(a, b, c);
    assert IdPart(number, lead, planId, isPlanSum) == a + b + c;
  }

  lemma IdMessagesKeepAllOk(planId: string)
    ensures !ClearsAllOk(CourseIdFormat) && !ClearsAllOk(PlanIdFormat)
    ensures !ClearsAllOk(PlanIdCourseMismatch) && !ClearsAllOk(PlanIdIs(planId))
  {
  }

  lemma NoClearingOfShort(a: seq<Message>, b: seq<Message>, c: seq<Message>)
    requires |a| <= 1 && |b| <= 1 && |c| <= 1
    requires forall i :: 0 <= i < |a| ==> !ClearsAllOk(a[i])
    requires forall i :: 0 <= i < |b| ==> !ClearsAllOk(b[i])
    requires forall i :: 0 <= i < |c| ==> !ClearsAllOk(c[i])
    ensures NoClearing(a + b + c)
  {
    NoClearingAppend(a + b, c);
    NoClearingAppend(a, b);
    NoClearingMeans(a);
    NoClearingMeans(b);
    NoClearingMeans(c);
  }

  method CheckIds(courseId: string, planId: string, isPlanSum: bool, results: seq<Message>, allOk: bool)
    returns (results': seq<Message>, allOk': bool)
    ensures results' == results + IdFindingsOf(courseId, planId, isPlanSum)
    ensures allOk' == (allOk && NoClearing(IdFindingsOf(courseId, planId, isPlanSum)))
  {
    var number := ParseCourseId(courseId);
    var lead := ParsePlanId(planId);
    results', allOk' := ReportIds(number, lead, planId, isPlanSum, results, allOk);
  }

  /** The branches on the two match results (PlanCheck.cs:237-254), one finding each. */
  method ReportIds(number: Option<string>, lead: Option<string>, planId: string, isPlanSum: bool,
                   results: seq<Message>, allOk: bool)
    returns (results': seq<Message>, allOk': bool)
    ensures results' == results + IdPart(number, lead, planId, isPlanSum)
    ensures allOk' == (allOk && NoClearing(IdPart(number, lead, planId, isPlanSum)))
  {
    results' := results;
    if number.None? {
      results' := results' + [CourseIdFormat];
    }
    if lead.None? {
      results' := results' + [PlanIdFormat];
    } else if number != lead {
      results' := results' + [PlanIdCourseMismatch];
    }
    if isPlanSum {
      results' := results' + [PlanIdIs(planId)];
    }
    allOk' := allOk;
    IdPartKeepsAllOk(number, lead, planId, isPlanSum);
  }

  // ---------------------------------------------------------------------------
  // Fractionation, CT origin, CT date (PlanCheck.cs:275-302)

  function FractionPart(count: int, dose: real): seq<Message> {
    (if count > 49 then [TooManyFractions] else []) + (if dose < 100.0 then [DoseTooSmall] else [])
  }

  method CheckFractionation(count: int, dose: real, results: seq<Message>, allOk: bool)
    returns (results': seq<Message>, allOk': bool)
    ensures results' == results + FractionPart(count, dose)
    ensures allOk' == (allOk && NoClearing(FractionPart(count, dose)))
  {
    results', allOk' := results, allOk;
    if count > 49 {
      results' := results' + [TooManyFractions];
      allOk' := false;
    }
    if dose < 100.0 {
      results' := results' + [DoseTooSmall];
      allOk' := false;
    }
    NoClearingMeans(FractionPart(count, dose));
  }

  function OriginPart(origin: Vec3): seq<Message> {
    if !(origin.x == 0.0 && origin.y == 0.0 && origin.z == 0.0) then [CtOriginNotZero(origin)] else []
  }

  function CtDatePart(image: Image): seq<Message>
    requires ValidStamp(image.series.created)
  {
    var c := image.series.created;
    if !Contains(image.id, YYMMDD(c.year, c.month, c.day)) then [CtDateMissing]
    else [CtCreationDate(c.year, c.month, c.day)]
  }

  /** The date finding names the creation date exactly when the image identifier holds it
      as six digits YYMMDD, which read back as the year modulo 100, the month and the day. */
  lemma CtDateFindings(image: Image)
    requires ValidStamp(image.series.created)
    ensures var c := image.series.created;
      var s := YYMMDD(c.year, c.month, c.day);
      |s| == 6 &&
      TwoDigitValue(s[..2]) == c.year % 100 && TwoDigitValue(s[2..4]) == c.month &&
      TwoDigitValue(s[4..]) == c.day &&
      (CtDateMissing in CtDatePart(image) <==> forall i :: !OccursAt(image.id, s, i)) &&
      (CtCreationDate(c.year, c.month, c.day) in CtDatePart(image) <==> exists i :: OccursAt(image.id, s, i))
  {
    var c := image.series.created;
    YYMMDDRoundTrip(c.year, c.month, c.day);
    ContainsIffOccurs(image.id, YYMMDD(c.year, c.month, c.day));
  }
  method CheckOrigin(origin: Vec3, results: seq<Message>, allOk: bool)
    returns (results': seq<Message>, allOk': bool)
    ensures results' == results + OriginPart(origin)
    ensures allOk' == (allOk && NoClearing(OriginPart(origin)))
  {
    results', allOk' := results, allOk;
    if !(origin.x == 0.0 && origin.y == 0.0 && origin.z == 0.0) {
      results' := results' + [CtOriginNotZero(origin)];
      allOk' := false;
    }
  }

  method CheckCtDate(image: Image, results: seq<Message>, allOk: bool)
    returns (results': seq<Message>, allOk': bool)
    requires ValidStamp(image.series.created)
    ensures results' == results + CtDatePart(image)
    ensures allOk' == (allOk && NoClearing(CtDatePart(image)))
  {
    var c := image.series.created;
    var ctdate := YYMMDD(c.year, c.month, c.day);
    if IndexOf(image.id, ctdate) < 0 {
      results', allOk' := results + [CtDateMissing], false;
    } else {
      results', allOk' := results + [CtCreationDate(c.year, c.month, c.day)], allOk;
    }
  }


  // ---------------------------------------------------------------------------
  // Is the planning CT the latest one? (PlanCheck.cs:304-320)

  /** A study of the patient that makes the planning CT out of date: created later on
      another day, with an imaging device, and not an ARIA RadOnc study. */
  predicate Supersedes(s: Series, creation: Stamp) {
    Later(s.created, creation) && s.deviceId != "" && s.comment != "ARIA RadOnc Study" &&
    !SameDay(s.created, creation)
  }

  function CtLatestPart(studies: seq<Series>, creation: Stamp): seq<Message> {
    if exists j :: 0 <= j < |studies| && Supersedes(studies[j], creation) then [CtNotLatest] else []
  }

  method CheckCtLatest(studies: seq<Series>, creation: Stamp, results: seq<Message>, allOk: bool)
    returns (results': seq<Message>, allOk': bool)
    ensures results' == results + CtLatestPart(studies, creation)
    ensures allOk' == (allOk && NoClearing(CtLatestPart(studies, creation)))
  {
    var latest := true;
    allOk' := allOk;
    var i := 0;
    while i < |studies|
      invariant 0 <= i <= |studies|
      invariant latest <==> forall j :: 0 <= j < i ==> !Supersedes(studies[j], creation)
      invariant allOk' == (allOk && latest)
    {
      var t := studies[i].created;
      if Later(t, creation) && studies[i].deviceId != "" && studies[i].comment != "ARIA RadOnc Study" {
        if !SameDay(t, creation) {
          latest := false;
          allOk' := false;
        }
      }
      i := i + 1;
    }
    results' := results;
    if !latest {
      results' := results' + [CtNotLatest];
    }
  }

  // ---------------------------------------------------------------------------
  // Plan type (PlanCheck.cs:323-349)

  /** The plan-type loop: the first treatment field with an MLC fixes the MLC plan type,
      and electron candidates before it set the electron flag and the weight. */
  method ClassifyPlan(beams: seq<Beam>, volumePre: bool) returns (k: PlanKinds, numberOfBeams: nat, weight: real)
    ensures k == KindsOf(beams, volumePre)
    ensures numberOfBeams == TreatmentCount(beams)
    ensures weight == ElectronWeight(beams)
  {
    var planType, electron;
    planType, electron, weight, numberOfBeams := ScanFields(beams);
    var imrt, sbrt, vmat := false, false, false;
    if planType == 1 {
      imrt := true;
    } else if planType == 0 && volumePre {
      sbrt := true;
    } else if planType == 3 {
      vmat := true;
    }
    k := PlanKinds(electron, imrt, sbrt, vmat);
  }

  /** The variables of the plan-type loop (PlanCheck.cs:329-348): fGetPlanType, planType,
      fIsElectron, weight and numberOfBeams. */
  datatype FieldScan = FieldScan(got: bool, planType: int, electron: bool, weight: real, count: nat)

  /** One pass of the loop body over field b. */
  function ScanNext(s: FieldScan, b: Beam): FieldScan {
    var s' :=
      if s.got then s
      else if IsMlcTreatment(b) then s.(got := true, planType := b.mlcPlanType)
      else if IsElectronCandidate(b) then s.(electron := true, weight := b.weight)
      else s;
    if IsTreatment(b) then s'.(count := s'.count + 1) else s'
  }

  /** The loop's state after the fields bs. */
  function ScanOf(bs: seq<Beam>): FieldScan {
    if |bs| == 0 then FieldScan(false, 0, false, 0.0, 0) else ScanNext(ScanOf(bs[..|bs| - 1]), bs[|bs| - 1])
  }

  /** The loop counts the treatment fields. */
  lemma {:induction false} ScanCount(bs: seq<Beam>)
    ensures ScanOf(bs).count == TreatmentCount(bs)
  {
    if |bs| > 0 {
      ScanCount(bs[..|bs| - 1]);
    }
  }

  /** Before any MLC treatment field, the loop tracks the last electron candidate. */
  lemma {:induction false} ScanBeforeMlc(bs: seq<Beam>)
    requires forall j :: 0 <= j < |bs| ==> !IsMlcTreatment(bs[j])
    ensures !ScanOf(bs).got && ScanOf(bs).planType == 0
    ensures ScanOf(bs).electron == LastWhere(bs, IsElectronCandidate).Some?
    ensures ScanOf(bs).weight == CandidateWeight(bs)
  {
    if |bs| > 0 {
      var pre := bs[..|bs| - 1];
      assert forall j :: 0 <= j < |pre| ==> pre[j] == bs[j];
      ScanBeforeMlc(pre);
      if !IsElectronCandidate(bs[|bs| - 1]) {
        assert LastWhere(bs, IsElectronCandidate) == LastWhere(pre, IsElectronCandidate);
      }
    }
  }

  /** Once the plan type is taken, the flags and the weight stay as they are. */
  lemma {:induction false} ScanFrozen(bs: seq<Beam>, n: nat)
    requires n <= |bs| && ScanOf(bs[..n]).got
    ensures var s := ScanOf(bs); var t := ScanOf(bs[..n]);
      s.got && s.planType == t.planType && s.electron == t.electron && s.weight == t.weight
  {
    if n < |bs| {
      var pre := bs[..|bs| - 1];
      assert pre[..n] == bs[..n];
      ScanFrozen(pre, n);
    } else {
      assert bs[..n] == bs;
    }
  }

  /** The loop's flags are the plan's type and electron field. */
  lemma ScanMeaning(bs: seq<Beam>)
    ensures ScanOf(bs).planType == PlanType(bs)
    ensures ScanOf(bs).electron == ElectronField(bs).Some?
    ensures ScanOf(bs).weight == ElectronWeight(bs)
  {
    var f := FirstWhere(bs, IsMlcTreatment);
    var pre := bs[..f];
    assert forall j :: 0 <= j < |pre| ==> pre[j] == bs[j];
    ScanBeforeMlc(pre);
    if f < |bs| {
      assert bs[..f + 1][..f] == pre;
      ScanFrozen(bs, f + 1);
    } else {
      assert pre == bs;
    }
  }

  /** The field loop of the plan-type block: the first MLC treatment field fixes the
      plan type, and the electron candidates met before it set the electron flag. */
  method ScanFields(beams: seq<Beam>) returns (planType: int, electron: bool, weight: real, numberOfBeams: nat)
    ensures planType == PlanType(beams)
    ensures electron == ElectronField(beams).Some?
    ensures weight == ElectronWeight(beams)
    ensures numberOfBeams == TreatmentCount(beams)
  {
    planType := 0;
    electron := false;
    var gotPlanType := false;
    numberOfBeams := 0;
    weight := 0.0;
    var i := 0;
    while i < |beams|
      invariant 0 <= i <= |beams|
      invariant FieldScan(gotPlanType, planType, electron, weight, numberOfBeams) == ScanOf(beams[..i])
    {
      var b := beams[i];
      assert beams[..i + 1][..i] == beams[..i];
      if !gotPlanType {
        if !b.isSetup && b.hasMlc {
          planType := b.mlcPlanType;
          gotPlanType := true;
        } else if !b.isSetup && Contains(b.energy, "E") {
          electron := true;
          weight := b.weight;
        }
      }
      if !b.isSetup {
        numberOfBeams := numberOfBeams + 1;
      }
      i := i + 1;
    }
    assert beams[..|beams|] == beams;
    ScanCount(beams);
    ScanMeaning(beams);
  }



  // ---------------------------------------------------------------------------
  // Electron plan settings (PlanCheck.cs:356-359)

  function ElectronPart(k: PlanKinds, weight: real, normalizationMethod: string): seq<Message> {
    (if k.electron && weight != 1.0 then [ElectronWeightNotOne] else []) +
    (if k.electron && !Contains(normalizationMethod, "No plan") then [ElectronNormalization] else [])
  }

  method CheckElectronSettings(k: PlanKinds, weight: real, normalizationMethod: string,
                               results: seq<Message>, allOk: bool)
    returns (results': seq<Message>, allOk': bool)
    ensures results' == results + ElectronPart(k, weight, normalizationMethod)
    ensures allOk' == (allOk && NoClearing(ElectronPart(k, weight, normalizationMethod)))
  {
    results', allOk' := results, allOk;
    if k.electron && weight != 1.0 {
      results' := results' + [ElectronWeightNotOne];
    }
    if k.electron && !Contains(normalizationMethod, "No plan") {
      results' := results' + [ElectronNormalization];
    }
    NoClearingMeans(ElectronPart(k, weight, normalizationMethod));
  }

  // ---------------------------------------------------------------------------
  // Treatment room and couch structures (PlanCheck.cs:362-439)

  /** The last structure whose identifier contains name. */
  function LastNamed(ss: seq<Structure>, name: string): (r: Option<nat>)
    ensures r.Some? ==> r.value < |ss| && Contains(ss[r.value].id, name) &&
                        (forall j :: r.value < j < |ss| ==> !Contains(ss[j].id, name))
    ensures r.None? <==> forall j :: 0 <= j < |ss| ==> !Contains(ss[j].id, name)
  {
    if |ss| == 0 then None
    else if Contains(ss[|ss| - 1].id, name) then Some(|ss| - 1)
    else LastNamed(ss[..|ss| - 1], name)
  }

  /** No couch, or the x coordinate (in cm) of the last couch structure's centre. */
  function CouchFinding(ss: seq<Structure>, name: string): seq<Message> {
    var j := LastNamed(ss, name);
    if j.None? then [NoCouch] else [CouchCenter(ss[j.value].centerX / 10.0)]
  }

  /** The treatment machines the checker tells apart, by the machine identifier. */
  datatype Machine = Cl21ex | ClinacIxOpe | ClinacIx | ClIx13 | TrueBeam | UnknownId

  /** The comparisons of the machine identifier, in source order. */
  function MachineOf(id: string): (m: Machine)
    ensures m == UnknownId <==>
      id != "CL21EX" && id != "Clinac iX-OPE" && id != "CLINAC-IX" && id != "CL-IX-13" && id != "TrueBeamSN1609"
  {
    if id == "CL21EX" then Cl21ex
    else if id == "Clinac iX-OPE" then ClinacIxOpe
    else if id == "CLINAC-IX" then ClinacIx
    else if id == "CL-IX-13" then ClIx13
    else if id == "TrueBeamSN1609" then TrueBeam
    else UnknownId
  }

  /** The three Clinac rooms, where only VMAT plans need a couch structure. */
  predicate IsClinac(m: Machine) { m == ClinacIxOpe || m == ClinacIx || m == ClIx13 }

  /** The room label of a known machine, the unknown-machine error otherwise. */
  function RoomLabel(m: Machine): Message {
    match m
    case Cl21ex => Room("14 room")
    case ClinacIxOpe => Room("10 room")
    case ClinacIx => Room("9 room")
    case ClIx13 => Room("13 room")
    case TrueBeam => Room("TrueBeam")
    case UnknownId => UnknownMachine
  }

  /** The couch search: the grid for VMAT plans in the Clinac rooms, the interior for
      non-electron plans on the TrueBeam. */
  function CouchPart(m: Machine, k: PlanKinds, ss: seq<Structure>): seq<Message> {
    if IsClinac(m) && k.vmat then CouchFinding(ss, "CouchGrid")
    else if m == TrueBeam && !k.electron then CouchFinding(ss, "CouchInterior")
    else []
  }

  /** The findings after the room header for the machine of the first field. */
  function RoomPart(m: Machine, k: PlanKinds, ss: seq<Structure>): seq<Message> {
    [RoomLabel(m)] + CouchPart(m, k, ss)
  }


  function MachinePart(machine: string, k: PlanKinds, ss: seq<Structure>): seq<Message> {
    [TreatmentRoomHeader] + RoomPart(MachineOf(machine), k, ss)
  }

  /** The room header comes first, then a room label for a known machine and an error
      for an unknown one. */
  lemma MachineHeader(m: Machine, k: PlanKinds, ss: seq<Structure>)
    ensures var w := [TreatmentRoomHeader] + RoomPart(m, k, ss);
      |w| >= 2 && w[0] == TreatmentRoomHeader &&
      (UnknownMachine in w <==> m == UnknownId) &&
      (w[1].Room? <==> m != UnknownId)
  {
  }

  /** A couch is demanded of VMAT plans in the three Clinac rooms and of every
      non-electron plan on the TrueBeam, and only a missing one clears fAllOK. */
  lemma MachineCouch(m: Machine, k: PlanKinds, ss: seq<Structure>)
    ensures var w := [TreatmentRoomHeader] + RoomPart(m, k, ss);
      (NoCouch in w <==>
        (IsClinac(m) && k.vmat && forall j :: 0 <= j < |ss| ==> !Contains(ss[j].id, "CouchGrid")) ||
        (m == TrueBeam && !k.electron && forall j :: 0 <= j < |ss| ==> !Contains(ss[j].id, "CouchInterior"))) &&
      (NoClearing(w) <==> NoCouch !in w)
  {
    CouchPartMeaning(m, k, ss);
    RoomLabelShape(m);
    var x := CouchPart(m, k, ss);
    assert [TreatmentRoomHeader] + RoomPart(m, k, ss) == [TreatmentRoomHeader, RoomLabel(m)] + x;
    HeadKeeps([TreatmentRoomHeader, RoomLabel(m)], x);
  }

  lemma RoomLabelShape(m: Machine)
    ensures RoomLabel(m).Room? || RoomLabel(m) == UnknownMachine
  {
  }

  /** The couch search of the machine and plan kind, in terms of the structure names. */
  lemma CouchPartMeaning(m: Machine, k: PlanKinds, ss: seq<Structure>)
    ensures NoCouch in CouchPart(m, k, ss) <==>
      (IsClinac(m) && k.vmat && forall j :: 0 <= j < |ss| ==> !Contains(ss[j].id, "CouchGrid")) ||
      (m == TrueBeam && !k.electron && forall j :: 0 <= j < |ss| ==> !Contains(ss[j].id, "CouchInterior"))
    ensures NoClearing(CouchPart(m, k, ss)) <==> NoCouch !in CouchPart(m, k, ss)
  {
    if IsClinac(m) && k.vmat {
      CouchFindingMeaning(ss, "CouchGrid");
      assert m != TrueBeam;
    } else if m == TrueBeam && !k.electron {
      CouchFindingMeaning(ss, "CouchInterior");
    }
  }

  /** A head of the room header and the room label changes neither question. */
  lemma HeadKeeps(head: seq<Message>, x: seq<Message>)
    requires |head| == 2 && head[0] == TreatmentRoomHeader && (head[1].Room? || head[1] == UnknownMachine)
    ensures NoCouch in head + x <==> NoCouch in x
    ensures NoClearing(head + x) <==> NoClearing(x)
  {
    NoClearingAppend(head, x);
    NoClearingMeans(head);
    assert forall m :: m in head + x <==> m in head || m in x;
  }

  /** The couch search reports NoCouch exactly when no structure has the name, and only
      that finding clears fAllOK. */
  lemma CouchFindingMeaning(ss: seq<Structure>, name: string)
    ensures NoCouch in CouchFinding(ss, name) <==> forall j :: 0 <= j < |ss| ==> !Contains(ss[j].id, name)
    ensures NoClearing(CouchFinding(ss, name)) <==> NoCouch !in CouchFinding(ss, name)
  {
    NoClearingMeans(CouchFinding(ss, name));
  }

  /** Finds the last structure whose identifier contains name (the couch loops of
      PlanCheck.cs:371-376, 389-394, 407-412 and 423-428). */
  method FindCouch(ss: seq<Structure>, name: string) returns (found: bool, center: real)
    ensures found <==> LastNamed(ss, name).Some?
    ensures found ==> center == ss[LastNamed(ss, name).value].centerX / 10.0
  {
    found := false;
    center := 0.0;
    var i := 0;
    while i < |ss|
      invariant 0 <= i <= |ss|
      invariant found <==> LastNamed(ss[..i], name).Some?
      invariant found ==> center == ss[LastNamed(ss[..i], name).value].centerX / 10.0
    {
      LastNamedStep(ss, i, name);
      if IndexOf(ss[i].id, name) >= 0 {
        found := true;
        center := ss[i].centerX / 10.0;
      }
      i := i + 1;
    }
    assert ss[..|ss|] == ss;
  }

  lemma LastNamedStep(ss: seq<Structure>, i: nat, name: string)
    requires i < |ss|
    ensures LastNamed(ss[..i + 1], name) == if Contains(ss[i].id, name) then Some(i) else LastNamed(ss[..i], name)
  {
    assert ss[..i + 1][..i] == ss[..i];
  }

  method ReportCouch(ss: seq<Structure>, name: string, results: seq<Message>, allOk: bool)
    returns (results': seq<Message>, allOk': bool)
    ensures results' == results + CouchFinding(ss, name)
    ensures allOk' == (allOk && NoClearing(CouchFinding(ss, name)))
  {
    var found, center := FindCouch(ss, name);
    if !found {
      results' := results + [NoCouch];
      allOk' := false;
    } else {
      results' := results + [CouchCenter(center)];
      allOk' := allOk;
    }
  }

  method CheckRoom(m: Machine, k: PlanKinds, ss: seq<Structure>, results: seq<Message>, allOk: bool)
    returns (results': seq<Message>, allOk': bool)
    ensures results' == results + RoomPart(m, k, ss)
    ensures allOk' == (allOk && NoClearing(RoomPart(m, k, ss)))
  {
    results', allOk' := results, allOk;
    match m {
      case Cl21ex =>
        results' := results' + [Room("14 room")];
      case ClinacIxOpe =>
        results', allOk' := ReportClinac("10 room", k, ss, results', allOk');
      case ClinacIx =>
        results', allOk' := ReportClinac("9 room", k, ss, results', allOk');
      case ClIx13 =>
        results', allOk' := ReportClinac("13 room", k, ss, results', allOk');
      case TrueBeam =>
        results', allOk' := ReportTrueBeam(k, ss, results', allOk');
      case UnknownId =>
        results' := results' + [UnknownMachine];
    }
  }

  /** A Clinac room: its label, then the couch search when the plan is VMAT. */
  method ReportClinac(room: string, k: PlanKinds, ss: seq<Structure>, results: seq<Message>, allOk: bool)
    returns (results': seq<Message>, allOk': bool)
    ensures var w := [Room(room)] + (if k.vmat then CouchFinding(ss, "CouchGrid") else []);
      results' == results + w && allOk' == (allOk && NoClearing(w))
  {
    results', allOk' := results + [Room(room)], allOk;
    if k.vmat {
      results', allOk' := ReportCouch(ss, "CouchGrid", results', allOk');
      AppendAssoc(results, [Room(room)], CouchFinding(ss, "CouchGrid"));
      NoClearingAppend([Room(room)], CouchFinding(ss, "CouchGrid"));
    }
  }

  /** The TrueBeam room: its label, then the couch search. The source searches for an
      electron plan too but reports nothing about it, so that search is not repeated here. */
  method ReportTrueBeam(k: PlanKinds, ss: seq<Structure>, results: seq<Message>, allOk: bool)
    returns (results': seq<Message>, allOk': bool)
    ensures var w := [Room("TrueBeam")] + (if k.electron then [] else CouchFinding(ss, "CouchInterior"));
      results' == results + w && allOk' == (allOk && NoClearing(w))
  {
    results', allOk' := results + [Room("TrueBeam")], allOk;
    if !k.electron {
      results', allOk' := ReportCouch(ss, "CouchInterior", results', allOk');
      AppendAssoc(results, [Room("TrueBeam")], CouchFinding(ss, "CouchInterior"));
      NoClearingAppend([Room("TrueBeam")], CouchFinding(ss, "CouchInterior"));
    }
  }

  method CheckMachine(machine: string, k: PlanKinds, ss: seq<Structure>, results: seq<Message>, allOk: bool)
    returns (results': seq<Message>, allOk': bool)
    ensures results' == results + MachinePart(machine, k, ss)
    ensures allOk' == (allOk && NoClearing(MachinePart(machine, k, ss)))
  {
    var m := MachineOf(machine);
    results', allOk' := CheckRoom(m, k, ss, results + [TreatmentRoomHeader], allOk);
    AppendAssoc(results, [TreatmentRoomHeader], RoomPart(m, k, ss));
    NoClearingAppend([TreatmentRoomHeader], RoomPart(m, k, ss));
  }

  // ---------------------------------------------------------------------------
  // Dose summary after the field loop (PlanCheck.cs:617-626)

  function DoseSummary(dose: real, count: int): seq<Message> {
    [FieldsEnd, DosePerFractionHeader, DosePerFractionValue(dose), FractionsHeader, FractionsValue(count),
     TotalDoseHeader, TotalDoseValue(dose * count as real)]
  }
  method ReportDoseSummary(dose: real, count: int, results: seq<Message>, allOk: bool)
    returns (results': seq<Message>, allOk': bool)
    ensures results' == results + DoseSummary(dose, count)
    ensures allOk' == (allOk && NoClearing(DoseSummary(dose, count)))
  {
    results' := results + [FieldsEnd];
    results' := results' + [DosePerFractionHeader, DosePerFractionValue(dose)];
    results' := results' + [FractionsHeader, FractionsValue(count)];
    results' := results' + [TotalDoseHeader, TotalDoseValue(dose * count as real)];
    allOk' := allOk;
    NoClearingMeans(DoseSummary(dose, count));
  }


  // ---------------------------------------------------------------------------
  // Isocentre and CT origin (PlanCheck.cs:628-652)

  /** An EXTERNAL structure whose segment does not contain the user origin. */
  predicate ExcludesOrigin(s: Structure) { s.dicomType == "EXTERNAL" && !s.containsUserOrigin }

  /** One finding per EXTERNAL structure that leaves the origin outside. */
  function OutsideBody(ss: seq<Structure>): seq<Message> {
    if |ss| == 0 then []
    else OutsideBody(ss[..|ss| - 1]) + (if ExcludesOrigin(ss[|ss| - 1]) then [CtOriginOutsideBody] else [])
  }

  /** The number of EXTERNAL structures that leave the origin outside. */
  function ExcludingCount(ss: seq<Structure>): (n: nat)
    ensures n <= |ss|
    ensures n == 0 <==> forall j :: 0 <= j < |ss| ==> !ExcludesOrigin(ss[j])
  {
    if |ss| == 0 then 0 else ExcludingCount(ss[..|ss| - 1]) + (if ExcludesOrigin(ss[|ss| - 1]) then 1 else 0)
  }

  /** One origin warning per EXTERNAL structure that leaves the origin outside. */
  lemma {:induction false} OutsideBodyCount(ss: seq<Structure>)
    ensures Occurrences(OutsideBody(ss), CtOriginOutsideBody) == ExcludingCount(ss)
  {
    if |ss| > 0 {
      var pre := ss[..|ss| - 1];
      OutsideBodyCount(pre);
      var last := if ExcludesOrigin(ss[|ss| - 1]) then [CtOriginOutsideBody] else [];
      OccurrencesAppend(OutsideBody(pre), last, CtOriginOutsideBody);
    }
  }

  lemma {:induction false} OutsideBodySection(ss: seq<Structure>)
    ensures AllIn(OutsideBody(ss), 11)
  {
    if |ss| > 0 {
      var pre := ss[..|ss| - 1];
      OutsideBodySection(pre);
      var last := if ExcludesOrigin(ss[|ss| - 1]) then [CtOriginOutsideBody] else [];
      AllInAppend(OutsideBody(pre), last, 11);
    }
  }

  /** The multiple-isocentre warning when some field's isocentre is not the first one's. */
  function MultiIsoPart(beams: seq<Beam>, iso: Vec3): seq<Message> {
    if exists j :: 0 <= j < |beams| && DistSq(beams[j].isocenter, iso) != 0.0 then [MultipleIsocenters] else []
  }

  /** The distance warning when the isocentre is more than 500 mm from the CT origin. */
  function FarPart(iso: Vec3, origin: Vec3): seq<Message> {
    if DistSq(iso, origin) > 250000.0 then [CtOriginFar] else []
  }

  function IsocenterPart(beams: seq<Beam>, origin: Vec3, ss: seq<Structure>): seq<Message>
    requires |beams| >= 1
  {
    MultiIsoPart(beams, beams[0].isocenter) + OutsideBody(ss) + FarPart(beams[0].isocenter, origin)
  }

  method CheckOriginInBody(ss: seq<Structure>, results: seq<Message>, allOk: bool)
    returns (results': seq<Message>, allOk': bool)
    ensures results' == results + OutsideBody(ss)
    ensures allOk' == (allOk && NoClearing(OutsideBody(ss)))
  {
    results', allOk' := results, allOk;
    ghost var added: seq<Message> := [];
    var i := 0;
    while i < |ss|
      invariant 0 <= i <= |ss|
      invariant added == OutsideBody(ss[..i])
      invariant results' == results + added
      invariant allOk' == (allOk && NoClearing(added))
    {
      assert ss[..i + 1][..i] == ss[..i];
      if ss[i].dicomType == "EXTERNAL" && !ss[i].containsUserOrigin {
        AppendAssoc(results, added, [CtOriginOutsideBody]);
        results' := results' + [CtOriginOutsideBody];
        allOk' := false;
        added := added + [CtOriginOutsideBody];
      }
      i := i + 1;
    }
    assert ss[..|ss|] == ss;
  }

  /** The isocentre loop: every field shares the first field's isocentre. */
  method SameIsocenter(beams: seq<Beam>, iso: Vec3) returns (same: bool)
    ensures same <==> forall j :: 0 <= j < |beams| ==> DistSq(beams[j].isocenter, iso) == 0.0
  {
    same := true;
    var i := 0;
    while i < |beams|
      invariant 0 <= i <= |beams|
      invariant same <==> forall j :: 0 <= j < i ==> DistSq(beams[j].isocenter, iso) == 0.0
    {
      if DistSq(beams[i].isocenter, iso) != 0.0 {
        same := false;
      }
      i := i + 1;
    }
  }

  method CheckIsocenter(beams: seq<Beam>, origin: Vec3, ss: seq<Structure>, results: seq<Message>, allOk: bool)
    returns (results': seq<Message>, allOk': bool)
    requires |beams| >= 1
    ensures results' == results + IsocenterPart(beams, origin, ss)
    ensures allOk' == (allOk && NoClearing(IsocenterPart(beams, origin, ss)))
  {
    var iso := beams[0].isocenter;
    results', allOk' := CheckSameIsocenter(beams, iso, results, allOk);
    results', allOk' := CheckOriginInBody(ss, results', allOk');
    AppendStep(results, MultiIsoPart(beams, iso), OutsideBody(ss));
    results', allOk' := CheckOriginDistance(iso, origin, results', allOk');
    AppendStep(results, MultiIsoPart(beams, iso) + OutsideBody(ss), FarPart(iso, origin));
  }

  method CheckSameIsocenter(beams: seq<Beam>, iso: Vec3, results: seq<Message>, allOk: bool)
    returns (results': seq<Message>, allOk': bool)
    ensures results' == results + MultiIsoPart(beams, iso)
    ensures allOk' == (allOk && NoClearing(MultiIsoPart(beams, iso)))
  {
    var same := SameIsocenter(beams, iso);
    results', allOk' := results, allOk;
    if !same {
      results' := results' + [MultipleIsocenters];
      allOk' := false;
    }
  }

  method CheckOriginDistance(iso: Vec3, origin: Vec3, results: seq<Message>, allOk: bool)
    returns (results': seq<Message>, allOk': bool)
    ensures results' == results + FarPart(iso, origin)
    ensures allOk' == (allOk && NoClearing(FarPart(iso, origin)))
  {
    results', allOk' := results, allOk;
    if DistSq(iso, origin) > 250000.0 {
      results' := results' + [CtOriginFar];
      allOk' := false;
    }
  }

  // ---------------------------------------------------------------------------
  // Reference points (PlanCheck.cs:654-672)

  /** The reference-point loop: the first treatment field's points, else the first field's. */
  method SelectRefPoints(beams: seq<Beam>) returns (rps: seq<RefPoint>)
    requires |beams| >= 1
    ensures rps == RefPointsOf(beams)
  {
    ghost var f := FirstWhere(beams, IsTreatment);
    rps := beams[0].refPoints;
    var got := !beams[0].isSetup;
    var i := 0;
    while i < |beams|
      invariant 0 <= i <= |beams|
      invariant got <==> f < |beams| && (f < i || f == 0)
      invariant rps == if got then beams[f].refPoints else beams[0].refPoints
    {
      if !got {
        if !beams[i].isSetup {
          rps := beams[i].refPoints;
          got := true;
        }
      }
      i := i + 1;
    }
  }

  /** The loop over the chosen reference points: whether there is any, whether one is
      primary, and the location of the last primary one (the isocentre if none is). */
  method FindPrimary(rps: seq<RefPoint>, iso: Vec3) returns (hasRef: bool, hasPrimary: bool, location: Option<Vec3>)
    ensures hasRef <==> |rps| > 0
    ensures hasPrimary <==> LastWhere(rps, IsPrimary).Some?
    ensures location == PrimaryLocation(rps, iso)
  {
    hasRef, hasPrimary := false, false;
    location := Some(iso);
    var i := 0;
    while i < |rps|
      invariant 0 <= i <= |rps|
      invariant hasRef <==> i > 0
      invariant hasPrimary <==> LastWhere(rps[..i], IsPrimary).Some?
      invariant location == PrimaryLocation(rps[..i], iso)
    {
      assert rps[..i + 1][..i] == rps[..i];
      hasRef := true;
      if rps[i].isPrimary {
        hasPrimary := true;
        location := rps[i].location;
      }
      i := i + 1;
    }
    assert rps[..|rps|] == rps;
  }

  /** The source's primary-location guard: the location of a primary point that exists. */
  lemma PrimaryLocationIsLast(rps: seq<RefPoint>, iso: Vec3)
    requires exists j :: 0 <= j < |rps| && rps[j].isPrimary
    ensures exists j :: 0 <= j < |rps| && rps[j].isPrimary && PrimaryLocation(rps, iso) == rps[j].location &&
                         (forall i :: j < i < |rps| ==> !rps[i].isPrimary)
  {
    var p := LastWhere(rps, IsPrimary);
    assert p.Some?;
  }

  // ---------------------------------------------------------------------------
  // Normalisation mode and iso/reference distance (PlanCheck.cs:690-714)

  function NormalizationPart(k: PlanKinds, doseAtRef: real, dose: real): seq<Message> {
    if Abs(doseAtRef - dose) > 0.00001 && Conventional(k) then [CheckNormalizationMode] else []
  }

  /** After the fatal check for a missing location: a warning when isocentre and primary
      point are more than 0.1 mm apart (but not in electron, VMAT or IMRT plans), a
      confirmation in conventional plans, and otherwise a note that the location is not
      needed. */
  function IsoRefPart(k: PlanKinds, iso: Vec3, location: Option<Vec3>): seq<Message> {
    if location.Some? && DistSq(iso, location.value) > 0.01 && !k.electron && !k.vmat && !k.imrt then [IsoRefDiffer]
    else if Conventional(k) then [IsoRefSame]
    else if location.Some? then [RefLocationNotNeeded]
    else []
  }

  lemma IsoRefFindings(k: PlanKinds, iso: Vec3, location: Option<Vec3>)
    requires location.Some? || !Conventional(k)
    ensures |IsoRefPart(k, iso, location)| <= 1
    ensures IsoRefDiffer in IsoRefPart(k, iso, location) <==>
      location.Some? && DistSq(iso, location.value) > 0.01 && !k.electron && !k.vmat && !k.imrt
    ensures Conventional(k) ==> IsoRefPart(k, iso, location) != []
    ensures k.sbrt && !k.vmat && !k.imrt && !k.electron && location.Some? && DistSq(iso, location.value) > 0.01 ==>
      IsoRefPart(k, iso, location) == [IsoRefDiffer]
  {
  }
  method CheckNormalization(k: PlanKinds, doseAtRef: real, dose: real, results: seq<Message>, allOk: bool)
    returns (results': seq<Message>, allOk': bool)
    ensures results' == results + NormalizationPart(k, doseAtRef, dose)
    ensures allOk' == (allOk && NoClearing(NormalizationPart(k, doseAtRef, dose)))
  {
    results', allOk' := results, allOk;
    if Abs(doseAtRef - dose) > 0.00001 && !k.vmat && !k.imrt && !k.sbrt && !k.electron {
      results' := results' + [CheckNormalizationMode];
      allOk' := false;
    }
  }

  /** The iso/reference branch chain after its first, fatal, branch. */
  method CheckIsoRef(k: PlanKinds, iso: Vec3, location: Option<Vec3>, results: seq<Message>, allOk: bool)
    returns (results': seq<Message>, allOk': bool)
    ensures results' == results + IsoRefPart(k, iso, location)
    ensures allOk' == (allOk && NoClearing(IsoRefPart(k, iso, location)))
  {
    results', allOk' := results, allOk;
    if location.Some? && DistSq(iso, location.value) > 0.01 && !k.electron && !k.vmat && !k.imrt {
      results' := results' + [IsoRefDiffer];
      allOk' := false;
    } else if !k.electron && !k.vmat && !k.imrt && !k.sbrt {
      results' := results' + [IsoRefSame];
    } else if location.Some? {
      results' := results' + [RefLocationNotNeeded];
    }
  }


  // ---------------------------------------------------------------------------
  // Reference point against each field edge (PlanCheck.cs:716-725)

  /** CheckRefPoint can classify p against field b: p is not in the plane of the source,
      and an MLC field has all 60 leaf pairs wherever the classification reads any of them
      (more than the source needs where a band reads only lower rows). */
  predicate Checkable(b: Beam, p: Vec3) {
    Depth(p, b.isocenter, b.firstControlPoint) != -1000.0 &&
    (b.hasMlc && LeavesRead(ToCollimatorPlane(p, b.isocenter, b.firstControlPoint), b.firstControlPoint.jaws) ==>
       |b.firstControlPoint.leaves| >= 60)
  }

  /** Where CheckRefPoint reads no leaf, a field is checkable whatever its leaf count; a
      point outside the jaws is classified 2 without any leaf read (PlanCheck.cs:108-109). */
  lemma NoLeafReadIsCheckable(b: Beam, p: Vec3)
    requires Depth(p, b.isocenter, b.firstControlPoint) != -1000.0
    requires !LeavesRead(ToCollimatorPlane(p, b.isocenter, b.firstControlPoint), b.firstControlPoint.jaws)
    ensures Checkable(b, p)
    ensures JawMarginViolated(ToCollimatorPlane(p, b.isocenter, b.firstControlPoint), b.firstControlPoint.jaws, 0.0) ==>
      EdgeResult(b, p) == 2
  {
  }

  predicate AllCheckable(beams: seq<Beam>, p: Vec3) {
    forall j :: 0 <= j < |beams| && IsTreatment(beams[j]) ==> Checkable(beams[j], p)
  }

  function EdgeResult(b: Beam, p: Vec3): int
    requires Checkable(b, p)
  {
    CheckRefPoint(b.firstControlPoint, b.isocenter, b.hasMlc, p)
  }

  function EdgeOf(b: Beam, p: Vec3): seq<Message>
    requires Checkable(b, p)
  {
    var r := EdgeResult(b, p);
    if r == 1 then [RefPointNearEdge(b.id)] else if r == 2 then [RefPointOutside(b.id)] else []
  }

  function EdgeFindings(beams: seq<Beam>, p: Vec3): seq<Message>
    requires AllCheckable(beams, p)
  {
    if |beams| == 0 then []
    else
      var b := beams[|beams| - 1];
      EdgeFindings(beams[..|beams| - 1], p) + (if IsTreatment(b) then EdgeOf(b, p) else [])
  }

  /** A field is named as too close to its edge exactly when it is a treatment field for
      which CheckRefPoint returns 1. */
  lemma {:induction false} EdgeNearMeaning(beams: seq<Beam>, p: Vec3, id: string)
    requires AllCheckable(beams, p)
    ensures RefPointNearEdge(id) in EdgeFindings(beams, p) <==>
      exists j :: 0 <= j < |beams| && IsTreatment(beams[j]) && beams[j].id == id && EdgeResult(beams[j], p) == 1
  {
    if |beams| > 0 {
      var n := |beams| - 1;
      var pre := beams[..n];
      EdgeNearMeaning(pre, p, id);
      assert forall j :: 0 <= j < n ==> pre[j] == beams[j];
    }
  }

  /** A field is named as missing the point exactly when it is a treatment field for
      which CheckRefPoint returns 2. */
  lemma {:induction false} EdgeOutsideMeaning(beams: seq<Beam>, p: Vec3, id: string)
    requires AllCheckable(beams, p)
    ensures RefPointOutside(id) in EdgeFindings(beams, p) <==>
      exists j :: 0 <= j < |beams| && IsTreatment(beams[j]) && beams[j].id == id && EdgeResult(beams[j], p) == 2
  {
    if |beams| > 0 {
      var n := |beams| - 1;
      var pre := beams[..n];
      EdgeOutsideMeaning(pre, p, id);
      assert forall j :: 0 <= j < n ==> pre[j] == beams[j];
    }
  }

  /** The edge warnings leave fAllOK alone. */
  lemma {:induction false} EdgeFindingsKeepAllOk(beams: seq<Beam>, p: Vec3)
    requires AllCheckable(beams, p)
    ensures NoClearing(EdgeFindings(beams, p))
  {
    if |beams| > 0 {
      var n := |beams| - 1;
      var b := beams[n];
      EdgeFindingsKeepAllOk(beams[..n], p);
      NoClearingAppend(EdgeFindings(beams[..n], p), if IsTreatment(b) then EdgeOf(b, p) else []);
    }
  }

  lemma {:induction false} EdgeFindingsSection(beams: seq<Beam>, p: Vec3)
    requires AllCheckable(beams, p)
    ensures AllIn(EdgeFindings(beams, p), 14)
  {
    if |beams| > 0 {
      var n := |beams| - 1;
      var b := beams[n];
      EdgeFindingsSection(beams[..n], p);
      AllInAppend(EdgeFindings(beams[..n], p), if IsTreatment(b) then EdgeOf(b, p) else [], 14);
    }
  }

  method CheckRefPointEdges(beams: seq<Beam>, p: Vec3, results: seq<Message>, allOk: bool)
    returns (results': seq<Message>, allOk': bool)
    requires AllCheckable(beams, p)
    ensures results' == results + EdgeFindings(beams, p)
    ensures allOk' == (allOk && NoClearing(EdgeFindings(beams, p)))
  {
    EdgeFindingsKeepAllOk(beams, p);
    results', allOk' := results, allOk;
    ghost var added: seq<Message> := [];
    var i := 0;
    while i < |beams|
      invariant 0 <= i <= |beams|
      invariant added == EdgeFindings(beams[..i], p)
      invariant results' == results + added
    {
      assert beams[..i + 1][..i] == beams[..i];
      var b := beams[i];
      if !b.isSetup {
        var result := CheckRefPoint(b.firstControlPoint, b.isocenter, b.hasMlc, p);
        if result == 1 {
          AppendAssoc(results, added, [RefPointNearEdge(b.id)]);
          results' := results' + [RefPointNearEdge(b.id)];
          added := added + [RefPointNearEdge(b.id)];
        }
        if result == 2 {
          AppendAssoc(results, added, [RefPointOutside(b.id)]);
          results' := results' + [RefPointOutside(b.id)];
          added := added + [RefPointOutside(b.id)];
        }
      }
      i := i + 1;
    }
    assert beams[..|beams|] == beams;
  }

  function HuPart(k: PlanKinds, hu: real): seq<Message> {
    if Conventional(k) && hu < -300.0 then [LowHu] else []
  }
  method CheckHu(k: PlanKinds, hu: real, results: seq<Message>, allOk: bool)
    returns (results': seq<Message>, allOk': bool)
    ensures results' == results + HuPart(k, hu)
    ensures allOk' == (allOk && NoClearing(HuPart(k, hu)))
  {
    results', allOk' := results, allOk;
    if !k.electron && !k.vmat && !k.imrt && !k.sbrt {
      if hu < -300.0 {
        results' := results' + [LowHu];
      }
    }
  }


  // ---------------------------------------------------------------------------
  // Bolus (PlanCheck.cs:747-761)

  predicate IsBolus(s: Structure) { s.dicomType == "BOLUS" }

  /** Every treatment field has a bolus attached. */
  predicate AllLinked(beams: seq<Beam>) {
    forall j :: 0 <= j < |beams| && IsTreatment(beams[j]) ==> beams[j].bolusCount > 0
  }

  function BolusCount(ss: seq<Structure>): (n: nat)
    ensures n <= |ss|
    ensures n == 0 <==> forall j :: 0 <= j < |ss| ==> !IsBolus(ss[j])
  {
    if |ss| == 0 then 0 else BolusCount(ss[..|ss| - 1]) + (if IsBolus(ss[|ss| - 1]) then 1 else 0)
  }

  /** One bolus finding per BOLUS structure. */
  function BolusFindings(ss: seq<Structure>, linked: bool): seq<Message> {
    if |ss| == 0 then []
    else
      BolusFindings(ss[..|ss| - 1], linked) +
      (if IsBolus(ss[|ss| - 1]) then [if linked then BolusLinked else BolusNotLinked] else [])
  }

  /** With every treatment field linked, each BOLUS structure yields one confirmation;
      otherwise each yields one warning. */
  lemma {:induction false} BolusFindingsCount(ss: seq<Structure>, linked: bool, m: Message)
    requires m == BolusLinked || m == BolusNotLinked
    ensures Occurrences(BolusFindings(ss, linked), m) == if linked == (m == BolusLinked) then BolusCount(ss) else 0
  {
    if |ss| > 0 {
      var pre := ss[..|ss| - 1];
      BolusFindingsCount(pre, linked, m);
      var last := if IsBolus(ss[|ss| - 1]) then [if linked then BolusLinked else BolusNotLinked] else [];
      OccurrencesAppend(BolusFindings(pre, linked), last, m);
    }
  }

  /** The bolus findings clear fAllOK exactly when a BOLUS structure exists and some
      treatment field is not linked. */
  lemma {:induction false} BolusFindingsClearing(ss: seq<Structure>, linked: bool)
    ensures NoClearing(BolusFindings(ss, linked)) <==> linked || BolusCount(ss) == 0
  {
    if |ss| > 0 {
      var pre := ss[..|ss| - 1];
      BolusFindingsClearing(pre, linked);
      var last := if IsBolus(ss[|ss| - 1]) then [if linked then BolusLinked else BolusNotLinked] else [];
      NoClearingAppend(BolusFindings(pre, linked), last);
    }
  }

  lemma BolusSections()
    ensures SectionOf(BolusLinked) == 18 && SectionOf(BolusNotLinked) == 18
  {
  }

  lemma {:induction false} BolusFindingsSection(ss: seq<Structure>, linked: bool)
    ensures AllIn(BolusFindings(ss, linked), 18)
  {
    if |ss| > 0 {
      var pre := ss[..|ss| - 1];
      BolusFindingsSection(pre, linked);
      var last := if IsBolus(ss[|ss| - 1]) then [if linked then BolusLinked else BolusNotLinked] else [];
      BolusSections();
      assert AllIn(last, 18);
      AllInAppend(BolusFindings(pre, linked), last, 18);
    }
  }

  /** The inner bolus loop: fLinkBolus falls to false at a treatment field without bolus. */
  method LinkScan(beams: seq<Beam>, linked: bool) returns (linked': bool)
    ensures linked' == (linked && AllLinked(beams))
  {
    linked' := linked;
    var i := 0;
    while i < |beams|
      invariant 0 <= i <= |beams|
      invariant linked' == (linked && forall j :: 0 <= j < i && IsTreatment(beams[j]) ==> beams[j].bolusCount > 0)
    {
      if beams[i].bolusCount == 0 && !beams[i].isSetup {
        linked' := false;
      }
      i := i + 1;
    }
  }

  lemma BolusStep(ss: seq<Structure>, i: nat, linked: bool)
    requires i < |ss|
    ensures BolusCount(ss[..i + 1]) == BolusCount(ss[..i]) + if IsBolus(ss[i]) then 1 else 0
    ensures BolusFindings(ss[..i + 1], linked) ==
      BolusFindings(ss[..i], linked) + if IsBolus(ss[i]) then [if linked then BolusLinked else BolusNotLinked] else []
  {
    assert ss[..i + 1][..i] == ss[..i];
  }

  method CheckBolus(ss: seq<Structure>, beams: seq<Beam>, results: seq<Message>, allOk: bool)
    returns (results': seq<Message>, allOk': bool, hasBolus: bool, linked: bool)
    ensures results' == results + BolusFindings(ss, AllLinked(beams))
    ensures allOk' == (allOk && NoClearing(BolusFindings(ss, AllLinked(beams))))
    ensures hasBolus <==> BolusCount(ss) > 0
    ensures linked == (hasBolus ==> AllLinked(beams))
  {
    BolusFindingsClearing(ss, AllLinked(beams));
    results', allOk' := results, allOk;
    hasBolus, linked := false, true;
    ghost var added: seq<Message> := [];
    var i := 0;
    while i < |ss|
      invariant 0 <= i <= |ss|
      invariant hasBolus <==> BolusCount(ss[..i]) > 0
      invariant linked == (hasBolus ==> AllLinked(beams))
      invariant added == BolusFindings(ss[..i], AllLinked(beams))
      invariant results' == results + added
      invariant allOk' == (allOk && (linked || !hasBolus))
    {
      BolusStep(ss, i, AllLinked(beams));
      if ss[i].dicomType == "BOLUS" {
        hasBolus := true;
        linked := LinkScan(beams, linked);
        var m := if linked then BolusLinked else BolusNotLinked;
        if !linked {
          results' := results' + [BolusNotLinked];
          allOk' := false;
        } else {
          results' := results' + [BolusLinked];
        }
        AppendAssoc(results, added, [m]);
        added := added + [m];
      }
      i := i + 1;
    }
    assert ss[..|ss|] == ss;
  }

  // ---------------------------------------------------------------------------
  // Electron SSD (PlanCheck.cs:763-785)

  /** The SSD of the last treatment field, or 0. */
  function ElectronSsd(beams: seq<Beam>): real {
    var j := LastWhere(beams, IsTreatment);
    if j.Some? then beams[j.value].ssd else 0.0
  }

  method LastTreatmentSsd(beams: seq<Beam>) returns (ssd: real)
    ensures ssd == ElectronSsd(beams)
  {
    ssd := 0.0;
    var i := 0;
    while i < |beams|
      invariant 0 <= i <= |beams|
      invariant ssd == ElectronSsd(beams[..i])
    {
      assert beams[..i + 1][..i] == beams[..i];
      if !beams[i].isSetup {
        ssd := beams[i].ssd;
      }
      i := i + 1;
    }
    assert beams[..|beams|] == beams;
  }

  /** The SSD window of an electron plan: 100 cm (999.5, 1000.5] mm without a linked
      bolus, 100.5 cm (1004.5, 1005.5] mm with one. */
  function SsdPart(k: PlanKinds, ssd: real, bolusLinked: bool): seq<Message> {
    if !k.electron then []
    else if !bolusLinked then (if ssd > 1000.5 || ssd <= 999.5 then [SsdNot100] else [])
    else (if ssd > 1005.5 || ssd <= 1004.5 then [SsdBolusNot1005] else [])
  }

  method CheckElectronSsd(k: PlanKinds, beams: seq<Beam>, hasBolus: bool, linked: bool,
                          results: seq<Message>, allOk: bool)
    returns (results': seq<Message>, allOk': bool)
    ensures results' == results + SsdPart(k, ElectronSsd(beams), hasBolus && linked)
    ensures allOk' == (allOk && NoClearing(SsdPart(k, ElectronSsd(beams), hasBolus && linked)))
  {
    results', allOk' := results, allOk;
    if k.electron {
      var ssd := LastTreatmentSsd(beams);
      if !hasBolus || (hasBolus && !linked) {
        if ssd > 1000.5 || ssd <= 999.5 {
          results' := results' + [SsdNot100];
          allOk' := false;
        }
      } else {
        if ssd > 1005.5 || ssd <= 1004.5 {
          results' := results' + [SsdBolusNot1005];
          allOk' := false;
        }
      }
    }
  }
}
