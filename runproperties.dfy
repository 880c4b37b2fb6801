/** Properties of a whole CheckPlan run (PlanCheck.cs:184-787): the findings come block by
    block in source order, "probably OK" closes exactly the runs that nothing flagged, and
    the counts the blocks promise carry over to the report. */
module RunProperties {
  import opened Wrappers
  import opened Text
  import opened Geometry
  import opened PlanData
  import opened FieldChecks
  import opened PlanBlocks
  import opened RuleEngine

  // ---------------------------------------------------------------------------
  // Every block writes only its own section

  lemma IdSection(courseId: string, planId: string, isPlanSum: bool)
    ensures AllIn(IdFindingsOf(courseId, planId, isPlanSum), 1)
  {
    IdPartSection(ParseCourseId(courseId), ParsePlanId(planId), planId, isPlanSum);
  }

  lemma IdPartSection(number: Option<string>, lead: Option<string>, planId: string, isPlanSum: bool)
    ensures AllIn(IdPart(number, lead, planId, isPlanSum), 1)
  {
    var a := if number.None? then [CourseIdFormat] else [];
    var b := if lead.None? then [PlanIdFormat] else if number != lead then [PlanIdCourseMismatch] else [];
    var c := if isPlanSum then [PlanIdIs(planId)] else [];
    AllInAppend(a, b, 1);
    AllInAppend(a + b, c, 1);
  }

  lemma CtDateSection(image: Image)
    requires ValidStamp(image.series.created)
    ensures AllIn(CtDatePart(image), 4)
  {
    CtDateFindings(image);
  }

  lemma MachineSection(machine: string, k: PlanKinds, ss: seq<Structure>)
    ensures AllIn(MachinePart(machine, k, ss), 8)
  {
    var m := MachineOf(machine);
    assert AllIn([TreatmentRoomHeader, RoomLabel(m)], 8);
    assert AllIn(CouchPart(m, k, ss), 8);
    AllInAppend([TreatmentRoomHeader, RoomLabel(m)], CouchPart(m, k, ss), 8);
    assert MachinePart(machine, k, ss) == [TreatmentRoomHeader, RoomLabel(m)] + CouchPart(m, k, ss);
  }

  lemma DoseSummarySection(dose: real, count: int)
    ensures AllIn(DoseSummary(dose, count), 10)
  {
  }

  lemma IsocenterSection(beams: seq<Beam>, origin: Vec3, ss: seq<Structure>)
    requires |beams| >= 1
    ensures AllIn(IsocenterPart(beams, origin, ss), 11)
  {
    var iso := beams[0].isocenter;
    OutsideBodySection(ss);
    AllInAppend(MultiIsoPart(beams, iso), OutsideBody(ss), 11);
    AllInAppend(MultiIsoPart(beams, iso) + OutsideBody(ss), FarPart(iso, origin), 11);
  }

  lemma EdgeSection(beams: seq<Beam>, k: PlanKinds, location: Option<Vec3>)
    requires Conventional(k) ==> location.Some? && AllCheckable(beams, location.value)
    ensures AllIn(EdgePart(beams, k, location), 14)
  {
    if Conventional(k) {
      EdgeFindingsSection(beams, location.value);
    }
  }

  lemma NormalizationSection(k: PlanKinds, doseAtRef: real, dose: real)
    ensures SectionedFrom([NormalizationPart(k, doseAtRef, dose)], 12)
  {
    assert AllIn(NormalizationPart(k, doseAtRef, dose), 12);
  }

  lemma IsoRefSection(k: PlanKinds, iso: Vec3, location: Option<Vec3>)
    ensures AllIn(IsoRefPart(k, iso, location), 13)
  {
  }

  lemma SsdSection(k: PlanKinds, ssd: real, bolusLinked: bool)
    ensures AllIn(SsdPart(k, ssd, bolusLinked), 19)
  {
  }

  lemma ShortSections(plan: Plan, k: PlanKinds, hu: real)
    ensures AllIn(HuPart(k, hu), 15) && AllIn(AlgorithmPart(plan, k), 16)
    ensures AllIn([Heterogeneity(plan.heterogeneity)], 17)
  {
  }

  lemma OrientationSection(orientation: int)
    ensures AllIn(OrientationPart(orientation), 0)
  {
  }

  lemma OpeningSectioned(plan: Plan, isPlanSum: bool)
    ensures |OpeningParts(plan, isPlanSum)| == 2 && SectionedFrom(OpeningParts(plan, isPlanSum), 0)
  {
    OrientationSection(plan.orientation);
    IdSection(plan.courseId, plan.id, isPlanSum);
    assert OpeningParts(plan, isPlanSum) ==
      [OrientationPart(plan.orientation), IdFindingsOf(plan.courseId, plan.id, isPlanSum)];
  }

  lemma CtSectioned(studies: seq<Series>, image: Image, count: int, dose: real)
    requires ValidStamp(image.series.created)
    ensures |CtParts(studies, image, count, dose)| == 5 && SectionedFrom(CtParts(studies, image, count, dose), 2)
  {
    CtDateSection(image);
  }

  lemma ElectronSection(k: PlanKinds, weight: real, normalizationMethod: string)
    ensures AllIn(ElectronPart(k, weight, normalizationMethod), 7)
  {
  }

  /** Five blocks in a row, each in its own section from s on. */
  lemma Sectioned5(a: seq<Message>, b: seq<Message>, c: seq<Message>, d: seq<Message>, e: seq<Message>, s: nat)
    requires AllIn(a, s) && AllIn(b, s + 1) && AllIn(c, s + 2) && AllIn(d, s + 3) && AllIn(e, s + 4)
    ensures SectionedFrom([a, b, c, d, e], s)
  {
  }

  /** Seven blocks in a row, each in its own section from s on. */
  lemma Sectioned7(a: seq<Message>, b: seq<Message>, c: seq<Message>, d: seq<Message>, e: seq<Message>,
                   f: seq<Message>, g: seq<Message>, s: nat)
    requires AllIn(a, s) && AllIn(b, s + 1) && AllIn(c, s + 2) && AllIn(d, s + 3) && AllIn(e, s + 4)
    requires AllIn(f, s + 5) && AllIn(g, s + 6)
    ensures SectionedFrom([a, b, c, d, e, f, g], s)
  {
  }

  lemma DeliverySectioned(plan: Plan, ss: StructureSet, k: PlanKinds, weight: real, volumePre: bool,
                          count: int, dose: real)
    requires |plan.beams| >= 1 && AllLeavesPresent(plan.beams)
    ensures |DeliveryParts(plan, ss, k, weight, volumePre, count, dose)| == 5
    ensures SectionedFrom(DeliveryParts(plan, ss, k, weight, volumePre, count, dose), 7)
  {
    ElectronSection(k, weight, plan.normalizationMethod);
    MachineSection(plan.beams[0].machineId, k, ss.structures);
    FieldReportShape(plan.beams, k, volumePre);
    DoseSummarySection(dose, count);
    IsocenterSection(plan.beams, ss.image.userOrigin, ss.structures);
    Sectioned5(ElectronPart(k, weight, plan.normalizationMethod),
               MachinePart(plan.beams[0].machineId, k, ss.structures),
               FieldReport(plan.beams, k, volumePre),
               DoseSummary(dose, count),
               IsocenterPart(plan.beams, ss.image.userOrigin, ss.structures), 7);
  }

  lemma ClosingSectioned(plan: Plan, ss: StructureSet, k: PlanKinds, location: Option<Vec3>)
    requires |plan.beams| >= 1
    requires Conventional(k) ==> location.Some? && AllCheckable(plan.beams, location.value)
    ensures |ClosingParts(plan, ss, k, location)| == 7 && SectionedFrom(ClosingParts(plan, ss, k, location), 13)
  {
    var beams := plan.beams;
    IsoRefSection(k, beams[0].isocenter, location);
    EdgeSection(beams, k, location);
    ShortSections(plan, k, ss.image.huAtRefPoint);
    BolusFindingsSection(ss.structures, AllLinked(beams));
    SsdSection(k, ElectronSsd(beams), BolusCount(ss.structures) > 0 && AllLinked(beams));
    Sectioned7(IsoRefPart(k, beams[0].isocenter, location),
               EdgePart(beams, k, location),
               HuPart(k, ss.image.huAtRefPoint),
               AlgorithmPart(plan, k),
               [Heterogeneity(plan.heterogeneity)],
               BolusFindings(ss.structures, AllLinked(beams)),
               SsdPart(k, ElectronSsd(beams), BolusCount(ss.structures) > 0 && AllLinked(beams)), 13);
  }

  // ---------------------------------------------------------------------------
  // The twenty blocks

  lemma JoinSectioned(o: seq<seq<Message>>, c: seq<seq<Message>>, d: seq<seq<Message>>,
                      n: seq<seq<Message>>, cl: seq<seq<Message>>)
    requires |o| == 2 && |c| == 5 && |d| == 5 && |n| == 1 && |cl| == 7
    requires SectionedFrom(o, 0) && SectionedFrom(c, 2) && SectionedFrom(d, 7)
    requires SectionedFrom(n, 12) && SectionedFrom(cl, 13)
    ensures |o + c + d + n + cl| == 20 && Sectioned(o + c + d + n + cl)
  {
    SectionedJoin(o, c, 0);
    SectionedJoin(o + c, d, 0);
    SectionedJoin(o + c + d, n, 0);
    SectionedJoin(o + c + d + n, cl, 0);
  }

  /** Block k of a completed run writes only findings of section k. */
  lemma PartsSectioned(studies: seq<Series>, plan: Plan, isPlanSum: bool)
    requires WellFormed(plan) && FirstFatal(plan).None?
    ensures |Parts(studies, plan, isPlanSum)| == 20 && Sectioned(Parts(studies, plan, isPlanSum))
  {
    var ss := plan.structureSet.value;
    var k := KindsOfPlan(plan);
    var count := plan.fractionCount.value;
    var dose := plan.dosePerFraction.value;
    var n := NormalizationPart(k, plan.doseAtPrimaryRefPoint, dose);
    OpeningSectioned(plan, isPlanSum);
    CtSectioned(studies, ss.image, count, dose);
    DeliverySectioned(plan, ss, k, ElectronWeight(plan.beams), VolumePre(plan), count, dose);
    NormalizationSection(k, plan.doseAtPrimaryRefPoint, dose);
    ClosingSectioned(plan, ss, k, Location(plan));
    var o := OpeningParts(plan, isPlanSum);
    var c := CtParts(studies, ss.image, count, dose);
    var d := DeliveryParts(plan, ss, k, ElectronWeight(plan.beams), VolumePre(plan), count, dose);
    var cl := ClosingParts(plan, ss, k, Location(plan));
    JoinSectioned(o, c, d, [n], cl);
    assert Parts(studies, plan, isPlanSum) == o + c + d + [n] + cl;
  }

  lemma Flatten2(a: seq<Message>, b: seq<Message>)
    ensures Flatten([a, b]) == a + b
  {
    FlattenSnoc([], a);
    assert [] + [a] == [a];
    FlattenSnoc([a], b);
    assert [a] + [b] == [a, b];
  }

  lemma Flatten5(a: seq<Message>, b: seq<Message>, c: seq<Message>, d: seq<Message>, e: seq<Message>)
    ensures Flatten([a, b, c, d, e]) == a + b + c + d + e
  {
    Flatten2(a, b);
    FlattenSnoc([a, b], c);
    assert [a, b] + [c] == [a, b, c];
    FlattenSnoc([a, b, c], d);
    assert [a, b, c] + [d] == [a, b, c, d];
    FlattenSnoc([a, b, c, d], e);
    assert [a, b, c, d] + [e] == [a, b, c, d, e];
  }

  lemma Flatten7(a: seq<Message>, b: seq<Message>, c: seq<Message>, d: seq<Message>, e: seq<Message>,
                 f: seq<Message>, g: seq<Message>)
    ensures Flatten([a, b, c, d, e, f, g]) == a + b + c + d + e + f + g
  {
    Flatten5(a, b, c, d, e);
    FlattenSnoc([a, b, c, d, e], f);
    assert [a, b, c, d, e] + [f] == [a, b, c, d, e, f];
    FlattenSnoc([a, b, c, d, e, f], g);
    assert [a, b, c, d, e, f] + [g] == [a, b, c, d, e, f, g];
  }

  lemma JoinFlatten(o: seq<seq<Message>>, c: seq<seq<Message>>, d: seq<seq<Message>>,
                    n: seq<seq<Message>>, cl: seq<seq<Message>>)
    ensures Flatten(o + c + d + n + cl) == Flatten(o) + Flatten(c) + Flatten(d) + Flatten(n) + Flatten(cl)
  {
    FlattenAppend(o, c);
    FlattenAppend(o + c, d);
    FlattenAppend(o + c + d, n);
    FlattenAppend(o + c + d + n, cl);
  }

  lemma OpeningFlatten(plan: Plan, isPlanSum: bool)
    ensures Flatten(OpeningParts(plan, isPlanSum)) == OpeningFindings(plan, isPlanSum)
  {
    Flatten2(OrientationPart(plan.orientation), IdFindingsOf(plan.courseId, plan.id, isPlanSum));
  }

  lemma CtFlatten(studies: seq<Series>, image: Image, count: int, dose: real)
    requires ValidStamp(image.series.created)
    ensures Flatten(CtParts(studies, image, count, dose)) == CtFindings(studies, image, count, dose)
  {
    Flatten5(FractionPart(count, dose), OriginPart(image.userOrigin), CtDatePart(image),
             CtLatestPart(studies, image.series.created), [CtToRedTable(image.series.deviceId)]);
  }

  lemma DeliveryFlatten(plan: Plan, ss: StructureSet, k: PlanKinds, weight: real, volumePre: bool,
                        count: int, dose: real)
    requires |plan.beams| >= 1 && AllLeavesPresent(plan.beams)
    ensures Flatten(DeliveryParts(plan, ss, k, weight, volumePre, count, dose)) ==
            DeliveryFindings(plan, ss, k, weight, volumePre, count, dose)
  {
    Flatten5(ElectronPart(k, weight, plan.normalizationMethod),
             MachinePart(plan.beams[0].machineId, k, ss.structures),
             FieldReport(plan.beams, k, volumePre),
             DoseSummary(dose, count),
             IsocenterPart(plan.beams, ss.image.userOrigin, ss.structures));
  }

  lemma ClosingFlatten(plan: Plan, ss: StructureSet, k: PlanKinds, location: Option<Vec3>)
    requires |plan.beams| >= 1
    requires Conventional(k) ==> location.Some? && AllCheckable(plan.beams, location.value)
    ensures Flatten(ClosingParts(plan, ss, k, location)) == ClosingFindings(plan, ss, k, location)
  {
    var beams := plan.beams;
    Flatten7(IsoRefPart(k, beams[0].isocenter, location),
             EdgePart(beams, k, location),
             HuPart(k, ss.image.huAtRefPoint),
             AlgorithmPart(plan, k),
             [Heterogeneity(plan.heterogeneity)],
             BolusFindings(ss.structures, AllLinked(beams)),
             SsdPart(k, ElectronSsd(beams), BolusCount(ss.structures) > 0 && AllLinked(beams)));
  }

  lemma JoinFindings(o: seq<seq<Message>>, c: seq<seq<Message>>, d: seq<seq<Message>>,
                     n: seq<Message>, cl: seq<seq<Message>>,
                     fo: seq<Message>, fc: seq<Message>, fd: seq<Message>, fcl: seq<Message>)
    requires Flatten(o) == fo && Flatten(c) == fc && Flatten(d) == fd && Flatten(cl) == fcl
    ensures Flatten(o + c + d + [n] + cl) == fo + fc + fd + n + fcl
  {
    JoinFlatten(o, c, d, [n], cl);
    FlattenSnoc([], n);
    assert [] + [n] == [n];
  }

  /** The findings of a completed run are the twenty blocks' findings, one after the other. */
  lemma FindingsAreParts(studies: seq<Series>, plan: Plan, isPlanSum: bool)
    requires WellFormed(plan) && FirstFatal(plan).None?
    ensures Findings(studies, plan, isPlanSum) == Flatten(Parts(studies, plan, isPlanSum))
  {
    var ss := plan.structureSet.value;
    var k := KindsOfPlan(plan);
    var count := plan.fractionCount.value;
    var dose := plan.dosePerFraction.value;
    var n := NormalizationPart(k, plan.doseAtPrimaryRefPoint, dose);
    var o := OpeningParts(plan, isPlanSum);
    var c := CtParts(studies, ss.image, count, dose);
    var d := DeliveryParts(plan, ss, k, ElectronWeight(plan.beams), VolumePre(plan), count, dose);
    var cl := ClosingParts(plan, ss, k, Location(plan));
    var fo := OpeningFindings(plan, isPlanSum);
    var fc := CtFindings(studies, ss.image, count, dose);
    var fd := DeliveryFindings(plan, ss, k, ElectronWeight(plan.beams), VolumePre(plan), count, dose);
    var fcl := ClosingFindings(plan, ss, k, Location(plan));
    OpeningFlatten(plan, isPlanSum);
    CtFlatten(studies, ss.image, count, dose);
    DeliveryFlatten(plan, ss, k, ElectronWeight(plan.beams), VolumePre(plan), count, dose);
    ClosingFlatten(plan, ss, k, Location(plan));
    JoinFindings(o, c, d, n, cl, fo, fc, fd, fcl);
    assert Parts(studies, plan, isPlanSum) == o + c + d + [n] + cl;
    assert Findings(studies, plan, isPlanSum) == fo + fc + fd + n + fcl;
  }

  lemma JoinAt(o: seq<seq<Message>>, c: seq<seq<Message>>, d: seq<seq<Message>>,
               n: seq<seq<Message>>, cl: seq<seq<Message>>)
    requires |o| == 2 && |c| == 5 && |d| == 5 && |n| == 1 && |cl| == 7
    ensures var all := o + c + d + n + cl;
      all[1] == o[1] && all[11] == d[4] && all[18] == cl[5] && all[19] == cl[6]
  {
  }

  /** Where the counted findings sit among the twenty blocks. */
  lemma PartsAt(studies: seq<Series>, plan: Plan, isPlanSum: bool)
    requires WellFormed(plan) && FirstFatal(plan).None?
    ensures Parts(studies, plan, isPlanSum)[1] == IdFindingsOf(plan.courseId, plan.id, isPlanSum)
    ensures Parts(studies, plan, isPlanSum)[11] ==
      IsocenterPart(plan.beams, plan.structureSet.value.image.userOrigin, plan.structureSet.value.structures)
    ensures Parts(studies, plan, isPlanSum)[18] ==
      BolusFindings(plan.structureSet.value.structures, AllLinked(plan.beams))
    ensures Parts(studies, plan, isPlanSum)[19] ==
      SsdPart(KindsOfPlan(plan), ElectronSsd(plan.beams),
              BolusCount(plan.structureSet.value.structures) > 0 && AllLinked(plan.beams))
  {
    var ss := plan.structureSet.value;
    var k := KindsOfPlan(plan);
    var count := plan.fractionCount.value;
    var dose := plan.dosePerFraction.value;
    var n := NormalizationPart(k, plan.doseAtPrimaryRefPoint, dose);
    var o := OpeningParts(plan, isPlanSum);
    var c := CtParts(studies, ss.image, count, dose);
    var d := DeliveryParts(plan, ss, k, ElectronWeight(plan.beams), VolumePre(plan), count, dose);
    var cl := ClosingParts(plan, ss, k, Location(plan));
    GroupLengths(studies, plan, isPlanSum);
    JoinAt(o, c, d, [n], cl);
    assert Parts(studies, plan, isPlanSum) == o + c + d + [n] + cl;
  }

  /** The four groups hold 2, 5, 5 and 7 blocks. */
  lemma GroupLengths(studies: seq<Series>, plan: Plan, isPlanSum: bool)
    requires WellFormed(plan) && FirstFatal(plan).None?
    ensures var ss := plan.structureSet.value;
      var k := KindsOfPlan(plan);
      var count := plan.fractionCount.value;
      var dose := plan.dosePerFraction.value;
      |OpeningParts(plan, isPlanSum)| == 2 && |CtParts(studies, ss.image, count, dose)| == 5 &&
      |DeliveryParts(plan, ss, k, ElectronWeight(plan.beams), VolumePre(plan), count, dose)| == 5 &&
      |ClosingParts(plan, ss, k, Location(plan))| == 7
  {
  }

  // ---------------------------------------------------------------------------
  // The closing verdict over any twenty sectioned blocks

  lemma CompletionInSourceOrder(parts: seq<seq<Message>>)
    requires |parts| == 20 && Sectioned(parts)
    ensures InSourceOrder(Completion(Flatten(parts)).results, 20)
  {
    var f := Flatten(parts);
    FlattenInSourceOrder(parts);
    var tail: seq<Message> := if NoClearing(f) then [ProbablyOk] else [];
    InSourceOrderAppend(f, tail, 19, 20);
  }

  lemma CompletionOccurrences(parts: seq<seq<Message>>, m: Message)
    requires |parts| == 20 && Sectioned(parts) && SectionOf(m) < 20
    ensures Occurrences(Completion(Flatten(parts)).results, m) == Occurrences(parts[SectionOf(m)], m)
  {
    var f := Flatten(parts);
    FlattenOccurrences(parts, m);
    var tail: seq<Message> := if NoClearing(f) then [ProbablyOk] else [];
    OccurrencesAppend(f, tail, m);
    ProbablyOkLast();
    assert m !in tail;
  }

  lemma ProbablyOkLast()
    ensures SectionOf(ProbablyOk) == 20
  {
  }

  /** Over any findings without a "probably OK" of their own. */
  lemma VerdictOf(f: seq<Message>)
    requires ProbablyOk !in f
    ensures var out := Completion(f);
      (out.allOk <==> forall i :: 0 <= i < |out.results| ==> !ClearsAllOk(out.results[i])) &&
      (out.allOk <==> ProbablyOk in out.results) &&
      (out.allOk ==> out.results[|out.results| - 1] == ProbablyOk)
  {
    var out := Completion(f);
    VerdictClears(f);
    NoClearingMeans(out.results);
  }

  lemma VerdictClears(f: seq<Message>)
    ensures Completion(f).allOk == NoClearing(Completion(f).results)
  {
    var rs := Completion(f).results;
    if NoClearing(f) {
      assert rs == f + [ProbablyOk];
      assert rs[..|f|] == f;
      assert NoClearing(rs);
    } else {
      assert rs == f;
    }
  }

  lemma CompletionVerdict(parts: seq<seq<Message>>)
    requires |parts| == 20 && Sectioned(parts)
    ensures var out := Completion(Flatten(parts));
      (out.allOk <==> forall i :: 0 <= i < |out.results| ==> !ClearsAllOk(out.results[i])) &&
      (out.allOk <==> ProbablyOk in out.results) &&
      (out.allOk ==> out.results[|out.results| - 1] == ProbablyOk)
  {
    FlattenOccurrences(parts, ProbablyOk);
    VerdictOf(Flatten(parts));
  }

  // ---------------------------------------------------------------------------
  // The report of a completed run

  /** A run ends in a report exactly when no fatal check fires, and a fatal run ends with
      the first exception. */
  lemma ReportIffNoFatal(studies: seq<Series>, plan: Plan, isPlanSum: bool)
    requires WellFormed(plan)
    ensures Expected(studies, plan, isPlanSum).Report? <==> FirstFatal(plan).None?
    ensures Expected(studies, plan, isPlanSum).Fatal? ==> Some(Expected(studies, plan, isPlanSum).reason) == FirstFatal(plan)
  {
  }

  /** A plan without fields is accepted and never completes: it fails on its dose, its
      structure set or its prescription (PlanCheck.cs:187-273), or else where the first
      field is read (363); the electron check at 351 counts no field. */
  lemma FieldlessPlanAborts(studies: seq<Series>, plan: Plan, isPlanSum: bool)
    requires |plan.beams| == 0
    requires plan.structureSet.Some? ==> ValidStamp(plan.structureSet.value.image.series.created)
    ensures WellFormed(plan)
    ensures Expected(studies, plan, isPlanSum) ==
      Fatal(if OpeningFatal(plan).Some? then OpeningFatal(plan).value
            else if CtFatal(plan).Some? then CtFatal(plan).value
            else NoFields)
  {
    assert TreatmentCount(plan.beams) == 0;
  }

  /** A completed run reports the twenty blocks' findings and its verdict. */
  lemma ReportIsCompletion(studies: seq<Series>, plan: Plan, isPlanSum: bool)
    requires WellFormed(plan) && Expected(studies, plan, isPlanSum).Report?
    ensures FirstFatal(plan).None?
    ensures |Parts(studies, plan, isPlanSum)| == 20 && Sectioned(Parts(studies, plan, isPlanSum))
    ensures Expected(studies, plan, isPlanSum) == Completion(Flatten(Parts(studies, plan, isPlanSum)))
  {
    ReportIffNoFatal(studies, plan, isPlanSum);
    PartsSectioned(studies, plan, isPlanSum);
    FindingsAreParts(studies, plan, isPlanSum);
  }

  /** The report lists its findings block by block in source order, "probably OK" last. */
  lemma ReportInSourceOrder(studies: seq<Series>, plan: Plan, isPlanSum: bool)
    requires WellFormed(plan) && Expected(studies, plan, isPlanSum).Report?
    ensures InSourceOrder(Expected(studies, plan, isPlanSum).results, 20)
  {
    ReportIsCompletion(studies, plan, isPlanSum);
    CompletionInSourceOrder(Parts(studies, plan, isPlanSum));
  }

  /** How often a finding of block s appears in the report: as often as block s wrote it. */
  lemma ReportOccurrences(studies: seq<Series>, plan: Plan, isPlanSum: bool, m: Message)
    requires WellFormed(plan) && Expected(studies, plan, isPlanSum).Report?
    requires SectionOf(m) < 20
    ensures FirstFatal(plan).None?
    ensures Occurrences(Expected(studies, plan, isPlanSum).results, m) ==
            Occurrences(Parts(studies, plan, isPlanSum)[SectionOf(m)], m)
  {
    ReportIsCompletion(studies, plan, isPlanSum);
    CompletionOccurrences(Parts(studies, plan, isPlanSum), m);
  }

  /** fAllOK is true exactly when no finding cleared it, exactly then the report says
      "probably OK", and it says so last. */
  lemma ReportVerdict(studies: seq<Series>, plan: Plan, isPlanSum: bool)
    requires WellFormed(plan) && Expected(studies, plan, isPlanSum).Report?
    ensures var out := Expected(studies, plan, isPlanSum);
      (out.allOk <==> forall i :: 0 <= i < |out.results| ==> !ClearsAllOk(out.results[i])) &&
      (out.allOk <==> ProbablyOk in out.results) &&
      (out.allOk ==> out.results[|out.results| - 1] == ProbablyOk)
  {
    ReportIsCompletion(studies, plan, isPlanSum);
    CompletionVerdict(Parts(studies, plan, isPlanSum));
  }

  /** The sections of the counted findings. */
  lemma IdSections(id: string)
    ensures SectionOf(CourseIdFormat) == 1 && SectionOf(PlanIdFormat) == 1
    ensures SectionOf(PlanIdCourseMismatch) == 1 && SectionOf(PlanIdIs(id)) == 1
  {
  }

  lemma OriginSection()
    ensures SectionOf(CtOriginOutsideBody) == 11
  {
  }

  lemma SsdSections()
    ensures SectionOf(SsdNot100) == 19 && SectionOf(SsdBolusNot1005) == 19
  {
  }

  /** A finding of block s is in the report exactly when block s wrote it. */
  lemma ReportMember(studies: seq<Series>, plan: Plan, isPlanSum: bool, m: Message, s: nat)
    requires WellFormed(plan) && Expected(studies, plan, isPlanSum).Report?
    requires SectionOf(m) == s < 20
    ensures m in Expected(studies, plan, isPlanSum).results <==> m in Parts(studies, plan, isPlanSum)[s]
  {
    ReportOccurrences(studies, plan, isPlanSum, m);
  }

  lemma OutsideBodyBlock(studies: seq<Series>, plan: Plan, isPlanSum: bool)
    requires WellFormed(plan) && FirstFatal(plan).None?
    ensures Occurrences(Parts(studies, plan, isPlanSum)[11], CtOriginOutsideBody) ==
            ExcludingCount(plan.structureSet.value.structures)
  {
    var ss := plan.structureSet.value;
    var beams := plan.beams;
    var iso := beams[0].isocenter;
    PartsAt(studies, plan, isPlanSum);
    OutsideBodyCount(ss.structures);
    OccurrencesAppend(MultiIsoPart(beams, iso), OutsideBody(ss.structures), CtOriginOutsideBody);
    OccurrencesAppend(MultiIsoPart(beams, iso) + OutsideBody(ss.structures), FarPart(iso, ss.image.userOrigin),
                      CtOriginOutsideBody);
  }

  /** One origin warning per EXTERNAL structure that leaves the user origin outside. */
  lemma ReportOriginOutsideBody(studies: seq<Series>, plan: Plan, isPlanSum: bool)
    requires WellFormed(plan) && Expected(studies, plan, isPlanSum).Report?
    ensures FirstFatal(plan).None?
    ensures Occurrences(Expected(studies, plan, isPlanSum).results, CtOriginOutsideBody) ==
            ExcludingCount(plan.structureSet.value.structures)
  {
    OriginSection();
    ReportOccurrences(studies, plan, isPlanSum, CtOriginOutsideBody);
    OutsideBodyBlock(studies, plan, isPlanSum);
  }

  lemma BolusBlock(studies: seq<Series>, plan: Plan, isPlanSum: bool)
    requires WellFormed(plan) && FirstFatal(plan).None?
    ensures var b := Parts(studies, plan, isPlanSum)[18];
      var n := BolusCount(plan.structureSet.value.structures);
      Occurrences(b, BolusLinked) == (if AllLinked(plan.beams) then n else 0) &&
      Occurrences(b, BolusNotLinked) == (if AllLinked(plan.beams) then 0 else n)
  {
    PartsAt(studies, plan, isPlanSum);
    BolusFindingsCount(plan.structureSet.value.structures, AllLinked(plan.beams), BolusLinked);
    BolusFindingsCount(plan.structureSet.value.structures, AllLinked(plan.beams), BolusNotLinked);
  }

  /** One bolus line per BOLUS structure: all confirmations when every treatment field is
      linked, all warnings otherwise. */
  lemma ReportBolus(studies: seq<Series>, plan: Plan, isPlanSum: bool)
    requires WellFormed(plan) && Expected(studies, plan, isPlanSum).Report?
    ensures FirstFatal(plan).None?
    ensures var rs := Expected(studies, plan, isPlanSum).results;
      var n := BolusCount(plan.structureSet.value.structures);
      Occurrences(rs, BolusLinked) == (if AllLinked(plan.beams) then n else 0) &&
      Occurrences(rs, BolusNotLinked) == (if AllLinked(plan.beams) then 0 else n)
  {
    BolusSections();
    ReportOccurrences(studies, plan, isPlanSum, BolusLinked);
    ReportOccurrences(studies, plan, isPlanSum, BolusNotLinked);
    BolusBlock(studies, plan, isPlanSum);
  }

  /** An electron plan that completes has exactly one treatment field. */
  lemma ElectronReportHasOneField(studies: seq<Series>, plan: Plan, isPlanSum: bool)
    requires WellFormed(plan) && Expected(studies, plan, isPlanSum).Report?
    requires KindsOfPlan(plan).electron
    ensures TreatmentCount(plan.beams) == 1
  {
    var beams := plan.beams;
    assert DeliveryFatal(plan).None?;
    var j :| 0 <= j < FirstWhere(beams, IsMlcTreatment) && IsElectronCandidate(beams[j]);
    assert IsTreatment(beams[j]);
  }

  /** Which SSD warning an electron plan's closing block writes. */
  lemma SsdPartMembers(k: PlanKinds, ssd: real, bolus: bool)
    requires k.electron
    ensures SsdNot100 in SsdPart(k, ssd, bolus) <==> !bolus && (ssd > 1000.5 || ssd <= 999.5)
    ensures SsdBolusNot1005 in SsdPart(k, ssd, bolus) <==> bolus && (ssd > 1005.5 || ssd <= 1004.5)
  {
  }

  lemma SsdBlock(studies: seq<Series>, plan: Plan, isPlanSum: bool)
    requires WellFormed(plan) && FirstFatal(plan).None?
    requires KindsOfPlan(plan).electron
    ensures var b := Parts(studies, plan, isPlanSum)[19];
      var ssd := ElectronSsd(plan.beams);
      var bolus := BolusCount(plan.structureSet.value.structures) > 0 && AllLinked(plan.beams);
      (SsdNot100 in b <==> !bolus && (ssd > 1000.5 || ssd <= 999.5)) &&
      (SsdBolusNot1005 in b <==> bolus && (ssd > 1005.5 || ssd <= 1004.5))
  {
    PartsAt(studies, plan, isPlanSum);
    SsdPartMembers(KindsOfPlan(plan), ElectronSsd(plan.beams),
                   BolusCount(plan.structureSet.value.structures) > 0 && AllLinked(plan.beams));
  }

  /** The SSD of an electron plan's last treatment field must be 100 cm, or 100.5 cm when
      a bolus is linked to every treatment field; the report warns exactly when it is not. */
  lemma ElectronSsdReport(studies: seq<Series>, plan: Plan, isPlanSum: bool)
    requires WellFormed(plan) && Expected(studies, plan, isPlanSum).Report?
    requires KindsOfPlan(plan).electron
    ensures var rs := Expected(studies, plan, isPlanSum).results;
      var ssd := ElectronSsd(plan.beams);
      var bolus := BolusCount(plan.structureSet.value.structures) > 0 && AllLinked(plan.beams);
      (SsdNot100 in rs <==> !bolus && (ssd > 1000.5 || ssd <= 999.5)) &&
      (SsdBolusNot1005 in rs <==> bolus && (ssd > 1005.5 || ssd <= 1004.5))
  {
    SsdSections();
    ReportIffNoFatal(studies, plan, isPlanSum);
    ReportMember(studies, plan, isPlanSum, SsdNot100, 19);
    ReportMember(studies, plan, isPlanSum, SsdBolusNot1005, 19);
    SsdBlock(studies, plan, isPlanSum);
  }

  lemma IdBlock(studies: seq<Series>, plan: Plan, isPlanSum: bool)
    requires WellFormed(plan) && FirstFatal(plan).None?
    ensures var b := Parts(studies, plan, isPlanSum)[1];
      (CourseIdFormat in b <==> forall n :: !CourseIdShape(plan.courseId, n)) &&
      (PlanIdFormat in b <==> forall a, b, c :: !PlanIdShape(plan.id, a, b, c)) &&
      (PlanIdCourseMismatch in b <==>
         exists a, b, c :: PlanIdShape(plan.id, a, b, c) && !CourseIdShape(plan.courseId, a)) &&
      (PlanIdIs(plan.id) in b <==> isPlanSum)
  {
    PartsAt(studies, plan, isPlanSum);
    IdFormatFindings(plan.courseId, plan.id, isPlanSum);
    IdMismatchFinding(plan.courseId, plan.id, isPlanSum);
  }

  /** The identifier findings of a completed run, in terms of the identifiers' shapes. */
  lemma ReportIds(studies: seq<Series>, plan: Plan, isPlanSum: bool)
    requires WellFormed(plan) && Expected(studies, plan, isPlanSum).Report?
    ensures var rs := Expected(studies, plan, isPlanSum).results;
      (CourseIdFormat in rs <==> forall n :: !CourseIdShape(plan.courseId, n)) &&
      (PlanIdFormat in rs <==> forall a, b, c :: !PlanIdShape(plan.id, a, b, c)) &&
      (PlanIdCourseMismatch in rs <==>
         exists a, b, c :: PlanIdShape(plan.id, a, b, c) && !CourseIdShape(plan.courseId, a)) &&
      (PlanIdIs(plan.id) in rs <==> isPlanSum)
  {
    IdSections(plan.id);
    ReportIffNoFatal(studies, plan, isPlanSum);
    ReportMember(studies, plan, isPlanSum, CourseIdFormat, 1);
    ReportMember(studies, plan, isPlanSum, PlanIdFormat, 1);
    ReportMember(studies, plan, isPlanSum, PlanIdCourseMismatch, 1);
    ReportMember(studies, plan, isPlanSum, PlanIdIs(plan.id), 1);
    IdBlock(studies, plan, isPlanSum);
  }
}
