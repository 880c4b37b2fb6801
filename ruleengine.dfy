/** CheckPlan (PlanCheck.cs:184-787) as a whole: the fatal checks that abort a run, the
    list of findings a completed run reports, and the plan-sum loop over several plans. */
module RuleEngine {
  import opened Wrappers
  import opened Text
  import opened Geometry
  import opened PlanData
  import opened FieldChecks
  import opened PlanBlocks

  /** fVolumePre: the normalisation method mentions "Target" (PlanCheck.cs:256-258). */
  predicate VolumePre(plan: Plan) { Contains(plan.normalizationMethod, "Target") }

  function KindsOfPlan(plan: Plan): PlanKinds { KindsOf(plan.beams, VolumePre(plan)) }

  /** refPointLocation: the primary reference point's location, NaN as None. */
  function Location(plan: Plan): Option<Vec3>
    requires |plan.beams| >= 1
  {
    PrimaryLocation(RefPointsOf(plan.beams), plan.beams[0].isocenter)
  }

  /** What the model needs of a plan for the source to run without an error the model does
      not reproduce: the 60 leaf pairs of every static MLC treatment field it scans, a
      representable CT creation date, and, for the reference point of a conventional plan,
      a point off the plane of each treatment field's source (where the divergence scale
      1000/(1000+y) is infinite or NaN) and all 60 leaf pairs in every MLC field whose
      leaves CheckRefPoint reads at all. */
  predicate WellFormed(plan: Plan) {
    AllLeavesPresent(plan.beams) &&
    (plan.structureSet.Some? ==> ValidStamp(plan.structureSet.value.image.series.created)) &&
    (|plan.beams| >= 1 && Conventional(KindsOfPlan(plan)) && Location(plan).Some? ==>
       AllCheckable(plan.beams, Location(plan).value))
  }

  /** The exceptions thrown before any finding: no dose, no structure set. */
  function OpeningFatal(plan: Plan): (r: Option<FatalReason>)
    ensures r.None? <==> plan.hasDose && plan.structureSet.Some?
  {
    if !plan.hasDose then Some(NotCalculated)
    else if plan.structureSet.None? then Some(NoStructureSet)
    else None
  }

  /** The exceptions of the prescription: no fraction count, no dose per fraction. */
  function CtFatal(plan: Plan): (r: Option<FatalReason>)
    ensures r.None? <==> plan.fractionCount.Some? && plan.dosePerFraction.Some?
  {
    if plan.fractionCount.None? then Some(NoFractionCount)
    else if plan.dosePerFraction.None? then Some(NoDosePerFraction)
    else None
  }

  /** An electron plan with more than one treatment field. */
  function DeliveryFatal(plan: Plan): (r: Option<FatalReason>)
    ensures r.None? <==> !(KindsOfPlan(plan).electron && TreatmentCount(plan.beams) > 1)
  {
    if KindsOfPlan(plan).electron && TreatmentCount(plan.beams) > 1 then Some(ElectronMultipleFields)
    else None
  }

  /** The first field's machine is read (PlanCheck.cs:363): a plan without fields fails there. */
  function FieldFatal(plan: Plan): (r: Option<FatalReason>)
    ensures r.None? <==> |plan.beams| >= 1
  {
    if |plan.beams| == 0 then Some(NoFields) else None
  }

  /** No reference point, no primary one, or (outside VMAT and IMRT) a primary reference
      point more than 0.01 mm from the normalisation point. */
  function RefPointFatal(plan: Plan): (r: Option<FatalReason>)
    requires |plan.beams| >= 1
    ensures r.None? || r.value.NoRefPoints? || r.value.NoPrimaryRefPoint? || r.value.PrimaryNotNormalizationPoint?
    ensures r == Some(NoRefPoints) <==> |RefPointsOf(plan.beams)| == 0
    ensures r == Some(NoPrimaryRefPoint) <==>
      |RefPointsOf(plan.beams)| > 0 &&
      forall j :: 0 <= j < |RefPointsOf(plan.beams)| ==> !RefPointsOf(plan.beams)[j].isPrimary
    ensures r == Some(PrimaryNotNormalizationPoint) <==>
      (exists j :: 0 <= j < |RefPointsOf(plan.beams)| && RefPointsOf(plan.beams)[j].isPrimary) &&
      Location(plan).Some? && plan.normalizationPoint.Some? &&
      DistSq(Location(plan).value, plan.normalizationPoint.value) > 0.0001 &&
      !KindsOfPlan(plan).vmat && !KindsOfPlan(plan).imrt
  {
    var k := KindsOfPlan(plan);
    var rps := RefPointsOf(plan.beams);
    var loc := Location(plan);
    if |rps| == 0 then Some(NoRefPoints)
    else if LastWhere(rps, IsPrimary).None? then Some(NoPrimaryRefPoint)
    else if loc.Some? && plan.normalizationPoint.Some? &&
            DistSq(loc.value, plan.normalizationPoint.value) > 0.0001 && !k.vmat && !k.imrt
    then Some(PrimaryNotNormalizationPoint)
    else None
  }

  /** A conventional plan whose primary reference point has no location. */
  function ClosingFatal(plan: Plan): (r: Option<FatalReason>)
    requires |plan.beams| >= 1
    ensures r.None? <==> !(Location(plan).None? && Conventional(KindsOfPlan(plan)))
  {
    if Location(plan).None? && Conventional(KindsOfPlan(plan)) then Some(PrimaryHasNoLocation)
    else None
  }

  function OrElse(a: Option<FatalReason>, b: Option<FatalReason>): (r: Option<FatalReason>)
    ensures r.None? <==> a.None? && b.None?
  {
    if a.Some? then a else b
  }

  /** The first exception CheckPlan throws, in source order, if any. */
  function FirstFatal(plan: Plan): (r: Option<FatalReason>)
    ensures r.None? <==>
      OpeningFatal(plan).None? && CtFatal(plan).None? && DeliveryFatal(plan).None? &&
      FieldFatal(plan).None? && RefPointFatal(plan).None? && ClosingFatal(plan).None?
  {
    OrElse(OpeningFatal(plan), OrElse(CtFatal(plan), OrElse(DeliveryFatal(plan),
      if FieldFatal(plan).Some? then FieldFatal(plan) else OrElse(RefPointFatal(plan), ClosingFatal(plan)))))
  }

  // ---------------------------------------------------------------------------
  // The blocks of a completed run, grouped by the fatal checks between them

  /** Blocks 0-1: orientation and identifiers. */
  function OpeningParts(plan: Plan, isPlanSum: bool): seq<seq<Message>> {
    [OrientationPart(plan.orientation), IdFindingsOf(plan.courseId, plan.id, isPlanSum)]
  }

  function OpeningFindings(plan: Plan, isPlanSum: bool): seq<Message> {
    OrientationPart(plan.orientation) + IdFindingsOf(plan.courseId, plan.id, isPlanSum)
  }

  /** Blocks 2-6: fractionation and the planning CT. */
  function CtParts(studies: seq<Series>, image: Image, count: int, dose: real): seq<seq<Message>>
    requires ValidStamp(image.series.created)
  {
    [FractionPart(count, dose), OriginPart(image.userOrigin), CtDatePart(image),
     CtLatestPart(studies, image.series.created), [CtToRedTable(image.series.deviceId)]]
  }

  function CtFindings(studies: seq<Series>, image: Image, count: int, dose: real): seq<Message>
    requires ValidStamp(image.series.created)
  {
    FractionPart(count, dose) + OriginPart(image.userOrigin) + CtDatePart(image) +
    CtLatestPart(studies, image.series.created) + [CtToRedTable(image.series.deviceId)]
  }

  /** Blocks 7-11: electron settings, room, fields, dose summary, isocentre. */
  function DeliveryParts(plan: Plan, ss: StructureSet, k: PlanKinds, weight: real, volumePre: bool,
                         count: int, dose: real): seq<seq<Message>>
    requires |plan.beams| >= 1 && AllLeavesPresent(plan.beams)
  {
    [ElectronPart(k, weight, plan.normalizationMethod),
     MachinePart(plan.beams[0].machineId, k, ss.structures),
     FieldReport(plan.beams, k, volumePre),
     DoseSummary(dose, count),
     IsocenterPart(plan.beams, ss.image.userOrigin, ss.structures)]
  }

  function DeliveryFindings(plan: Plan, ss: StructureSet, k: PlanKinds, weight: real, volumePre: bool,
                            count: int, dose: real): seq<Message>
    requires |plan.beams| >= 1 && AllLeavesPresent(plan.beams)
  {
    ElectronPart(k, weight, plan.normalizationMethod) +
    MachinePart(plan.beams[0].machineId, k, ss.structures) +
    FieldReport(plan.beams, k, volumePre) +
    DoseSummary(dose, count) +
    IsocenterPart(plan.beams, ss.image.userOrigin, ss.structures)
  }

  /** Block 14: the reference point against each treatment field, conventional plans only. */
  function EdgePart(beams: seq<Beam>, k: PlanKinds, location: Option<Vec3>): seq<Message>
    requires Conventional(k) ==> location.Some? && AllCheckable(beams, location.value)
  {
    if Conventional(k) then EdgeFindings(beams, location.value) else []
  }

  function AlgorithmPart(plan: Plan, k: PlanKinds): seq<Message> {
    [Algorithm(if k.electron then plan.electronModel else plan.photonModel)]
  }

  /** Blocks 13-19: iso/reference distance, field edges, HU, algorithm, heterogeneity,
      bolus, electron SSD. */
  function ClosingParts(plan: Plan, ss: StructureSet, k: PlanKinds, location: Option<Vec3>): seq<seq<Message>>
    requires |plan.beams| >= 1
    requires Conventional(k) ==> location.Some? && AllCheckable(plan.beams, location.value)
  {
    var beams := plan.beams;
    [IsoRefPart(k, beams[0].isocenter, location),
     EdgePart(beams, k, location),
     HuPart(k, ss.image.huAtRefPoint),
     AlgorithmPart(plan, k),
     [Heterogeneity(plan.heterogeneity)],
     BolusFindings(ss.structures, AllLinked(beams)),
     SsdPart(k, ElectronSsd(beams), BolusCount(ss.structures) > 0 && AllLinked(beams))]
  }

  function ClosingFindings(plan: Plan, ss: StructureSet, k: PlanKinds, location: Option<Vec3>): seq<Message>
    requires |plan.beams| >= 1
    requires Conventional(k) ==> location.Some? && AllCheckable(plan.beams, location.value)
  {
    var beams := plan.beams;
    IsoRefPart(k, beams[0].isocenter, location) +
    EdgePart(beams, k, location) +
    HuPart(k, ss.image.huAtRefPoint) +
    AlgorithmPart(plan, k) +
    [Heterogeneity(plan.heterogeneity)] +
    BolusFindings(ss.structures, AllLinked(beams)) +
    SsdPart(k, ElectronSsd(beams), BolusCount(ss.structures) > 0 && AllLinked(beams))
  }

  /** The twenty blocks of a run that throws nothing, block k at index k. */
  function Parts(studies: seq<Series>, plan: Plan, isPlanSum: bool): seq<seq<Message>>
    requires WellFormed(plan) && FirstFatal(plan).None?
  {
    var ss := plan.structureSet.value;
    var k := KindsOfPlan(plan);
    var count := plan.fractionCount.value;
    var dose := plan.dosePerFraction.value;
    OpeningParts(plan, isPlanSum) +
    CtParts(studies, ss.image, count, dose) +
    DeliveryParts(plan, ss, k, ElectronWeight(plan.beams), VolumePre(plan), count, dose) +
    [NormalizationPart(k, plan.doseAtPrimaryRefPoint, dose)] +
    ClosingParts(plan, ss, k, Location(plan))
  }

  /** The findings of a completed run before the closing verdict, block after block. */
  function Findings(studies: seq<Series>, plan: Plan, isPlanSum: bool): seq<Message>
    requires WellFormed(plan) && FirstFatal(plan).None?
  {
    var ss := plan.structureSet.value;
    var k := KindsOfPlan(plan);
    var count := plan.fractionCount.value;
    var dose := plan.dosePerFraction.value;
    OpeningFindings(plan, isPlanSum) +
    CtFindings(studies, ss.image, count, dose) +
    DeliveryFindings(plan, ss, k, ElectronWeight(plan.beams), VolumePre(plan), count, dose) +
    NormalizationPart(k, plan.doseAtPrimaryRefPoint, dose) +
    ClosingFindings(plan, ss, k, Location(plan))
  }

  /** The outcome of CheckPlan: the first exception, or the findings with the closing
      "probably OK" when no finding cleared fAllOK. */
  function Expected(studies: seq<Series>, plan: Plan, isPlanSum: bool): Outcome
    requires WellFormed(plan)
  {
    match FirstFatal(plan)
    case Some(r) => Fatal(r)
    case None => Completion(Findings(studies, plan, isPlanSum))
  }

  /** The closing verdict: "probably OK" is appended exactly when nothing cleared fAllOK. */
  function Completion(f: seq<Message>): (out: Outcome)
    ensures out.Report? && out.allOk == NoClearing(f)
    ensures out.results == f + (if out.allOk then [ProbablyOk] else [])
  {
    Report(f + (if NoClearing(f) then [ProbablyOk] else []), NoClearing(f))
  }

  // ---------------------------------------------------------------------------
  // The run stage by stage: what is left to do once the findings f are in, between
  // one group of fatal checks and the next

  function AfterOpening(studies: seq<Series>, plan: Plan, f: seq<Message>): Outcome
    requires WellFormed(plan) && OpeningFatal(plan).None?
  {
    match CtFatal(plan)
    case Some(r) => Fatal(r)
    case None =>
      var ss := plan.structureSet.value;
      AfterCt(plan, f + CtFindings(studies, ss.image, plan.fractionCount.value, plan.dosePerFraction.value))
  }

  function AfterCt(plan: Plan, f: seq<Message>): Outcome
    requires WellFormed(plan) && OpeningFatal(plan).None? && CtFatal(plan).None?
  {
    match DeliveryFatal(plan)
    case Some(r) => Fatal(r)
    case None =>
      if FieldFatal(plan).Some? then Fatal(NoFields) else
      var ss := plan.structureSet.value;
      var count := plan.fractionCount.value;
      var dose := plan.dosePerFraction.value;
      AfterDelivery(plan, f + DeliveryFindings(plan, ss, KindsOfPlan(plan), ElectronWeight(plan.beams),
                                               VolumePre(plan), count, dose))
  }

  function AfterDelivery(plan: Plan, f: seq<Message>): Outcome
    requires WellFormed(plan) && OpeningFatal(plan).None? && CtFatal(plan).None? && |plan.beams| >= 1
  {
    match RefPointFatal(plan)
    case Some(r) => Fatal(r)
    case None =>
      AfterNormalization(plan, f + NormalizationPart(KindsOfPlan(plan), plan.doseAtPrimaryRefPoint,
                                                     plan.dosePerFraction.value))
  }

  function AfterNormalization(plan: Plan, f: seq<Message>): Outcome
    requires WellFormed(plan) && OpeningFatal(plan).None? && |plan.beams| >= 1
  {
    match ClosingFatal(plan)
    case Some(r) => Fatal(r)
    case None => Completion(f + ClosingFindings(plan, plan.structureSet.value, KindsOfPlan(plan), Location(plan)))
  }

  lemma CtStage(studies: seq<Series>, plan: Plan, f: seq<Message>)
    requires WellFormed(plan) && OpeningFatal(plan).None? && CtFatal(plan).None?
    ensures AfterOpening(studies, plan, f) ==
      AfterCt(plan, f + CtFindings(studies, plan.structureSet.value.image,
                                   plan.fractionCount.value, plan.dosePerFraction.value))
  {
  }

  lemma DeliveryStage(plan: Plan, f: seq<Message>)
    requires WellFormed(plan) && OpeningFatal(plan).None? && CtFatal(plan).None? && DeliveryFatal(plan).None?
    requires |plan.beams| >= 1
    ensures AfterCt(plan, f) ==
      AfterDelivery(plan, f + DeliveryFindings(plan, plan.structureSet.value, KindsOfPlan(plan),
                                               ElectronWeight(plan.beams), VolumePre(plan),
                                               plan.fractionCount.value, plan.dosePerFraction.value))
  {
  }

  lemma RefPointStage(plan: Plan, f: seq<Message>)
    requires WellFormed(plan) && OpeningFatal(plan).None? && CtFatal(plan).None? && |plan.beams| >= 1
    requires RefPointFatal(plan).None?
    ensures AfterDelivery(plan, f) ==
      AfterNormalization(plan, f + NormalizationPart(KindsOfPlan(plan), plan.doseAtPrimaryRefPoint,
                                                     plan.dosePerFraction.value))
  {
  }

  lemma ClosingStage(plan: Plan, f: seq<Message>)
    requires WellFormed(plan) && OpeningFatal(plan).None? && |plan.beams| >= 1 && ClosingFatal(plan).None?
    ensures AfterNormalization(plan, f) ==
      Completion(f + ClosingFindings(plan, plan.structureSet.value, KindsOfPlan(plan), Location(plan)))
  {
  }

  /** Stage by stage, the run reaches the first exception or completes with the findings
      of every block. */
  lemma StagesMeanExpected(studies: seq<Series>, plan: Plan, isPlanSum: bool)
    requires WellFormed(plan) && OpeningFatal(plan).None?
    ensures AfterOpening(studies, plan, OpeningFindings(plan, isPlanSum)) ==
            Expected(studies, plan, isPlanSum)
  {
    if CtFatal(plan).None? {
      var ss := plan.structureSet.value;
      var k := KindsOfPlan(plan);
      var count := plan.fractionCount.value;
      var dose := plan.dosePerFraction.value;
      var f1 := OpeningFindings(plan, isPlanSum) + CtFindings(studies, ss.image, count, dose);
      CtStage(studies, plan, OpeningFindings(plan, isPlanSum));
      if DeliveryFatal(plan).None? && FieldFatal(plan).None? {
        var f2 := f1 + DeliveryFindings(plan, ss, k, ElectronWeight(plan.beams), VolumePre(plan), count, dose);
        DeliveryStage(plan, f1);
        if RefPointFatal(plan).None? {
          var f3 := f2 + NormalizationPart(k, plan.doseAtPrimaryRefPoint, dose);
          RefPointStage(plan, f2);
          if ClosingFatal(plan).None? {
            ClosingStage(plan, f3);
            assert f3 + ClosingFindings(plan, ss, k, Location(plan)) == Findings(studies, plan, isPlanSum);
          }
        }
      }
    }
  }

  // ---------------------------------------------------------------------------
  // The method, one stage per method; every stage keeps fAllOK equal to "no finding so far
  // cleared it"

  /** CheckPlan: the blocks in source order, aborting at the first fatal check. */
  method CheckPlan(studies: seq<Series>, plan: Plan, isPlanSum: bool) returns (out: Outcome)
    requires WellFormed(plan)
    ensures out == Expected(studies, plan, isPlanSum)
  {
    if !plan.hasDose {
      return Fatal(NotCalculated);
    }
    if plan.structureSet.None? {
      return Fatal(NoStructureSet);
    }
    var results, allOk := RunOpening(plan, isPlanSum);
    var volumePre := IndexOf(plan.normalizationMethod, "Target") >= 0;
    out := CheckPlanCt(studies, plan, volumePre, results, allOk);
    StagesMeanExpected(studies, plan, isPlanSum);
  }

  method CheckPlanCt(studies: seq<Series>, plan: Plan, volumePre: bool, results: seq<Message>, allOk: bool)
    returns (out: Outcome)
    requires WellFormed(plan) && OpeningFatal(plan).None?
    requires volumePre == VolumePre(plan) && allOk == NoClearing(results)
    ensures out == AfterOpening(studies, plan, results)
  {
    if plan.fractionCount.None? {
      return Fatal(NoFractionCount);
    }
    if plan.dosePerFraction.None? {
      return Fatal(NoDosePerFraction);
    }
    var ss := plan.structureSet.value;
    var count := plan.fractionCount.value;
    var dose := plan.dosePerFraction.value;
    var results', allOk' := RunCt(studies, ss.image, count, dose, results, allOk);
    NoClearingAppend(results, CtFindings(studies, ss.image, count, dose));
    out := CheckPlanDelivery(plan, volumePre, results', allOk');
  }

  method CheckPlanDelivery(plan: Plan, volumePre: bool, results: seq<Message>, allOk: bool)
    returns (out: Outcome)
    requires WellFormed(plan) && OpeningFatal(plan).None? && CtFatal(plan).None?
    requires volumePre == VolumePre(plan) && allOk == NoClearing(results)
    ensures out == AfterCt(plan, results)
  {
    var ss := plan.structureSet.value;
    var count := plan.fractionCount.value;
    var dose := plan.dosePerFraction.value;
    var k, numberOfBeams, weight := ClassifyPlan(plan.beams, volumePre);
    if k.electron && numberOfBeams > 1 {
      return Fatal(ElectronMultipleFields);
    }
    if |plan.beams| == 0 {
      return Fatal(NoFields);
    }
    var results', allOk' := RunDelivery(plan, ss, k, weight, volumePre, count, dose, results, allOk);
    NoClearingAppend(results, DeliveryFindings(plan, ss, k, weight, volumePre, count, dose));
    out := CheckPlanRefPoints(plan, k, results', allOk');
  }

  method CheckPlanRefPoints(plan: Plan, k: PlanKinds, results: seq<Message>, allOk: bool)
    returns (out: Outcome)
    requires WellFormed(plan) && OpeningFatal(plan).None? && CtFatal(plan).None? && |plan.beams| >= 1
    requires k == KindsOfPlan(plan) && allOk == NoClearing(results)
    ensures out == AfterDelivery(plan, results)
  {
    var beams := plan.beams;
    var rps := SelectRefPoints(beams);
    var hasRef, hasPrimary, location := FindPrimary(rps, beams[0].isocenter);
    if !hasRef {
      return Fatal(NoRefPoints);
    }
    if !hasPrimary {
      return Fatal(NoPrimaryRefPoint);
    }
    if location.Some? && plan.normalizationPoint.Some? &&
       DistSq(location.value, plan.normalizationPoint.value) > 0.0001 && !k.vmat && !k.imrt {
      return Fatal(PrimaryNotNormalizationPoint);
    }
    var dose := plan.dosePerFraction.value;
    var results', allOk' := CheckNormalization(k, plan.doseAtPrimaryRefPoint, dose, results, allOk);
    NoClearingAppend(results, NormalizationPart(k, plan.doseAtPrimaryRefPoint, dose));
    out := CheckPlanClosing(plan, k, location, results', allOk');
  }

  method CheckPlanClosing(plan: Plan, k: PlanKinds, location: Option<Vec3>, results: seq<Message>, allOk: bool)
    returns (out: Outcome)
    requires WellFormed(plan) && OpeningFatal(plan).None? && |plan.beams| >= 1
    requires k == KindsOfPlan(plan) && location == Location(plan) && allOk == NoClearing(results)
    ensures out == AfterNormalization(plan, results)
  {
    if location.None? && !k.electron && !k.vmat && !k.imrt && !k.sbrt {
      return Fatal(PrimaryHasNoLocation);
    }
    var results', allOk' := RunClosing(plan, plan.structureSet.value, k, location, results, allOk);
    NoClearingAppend(results, ClosingFindings(plan, plan.structureSet.value, k, location));
    if allOk' {
      results' := results' + [ProbablyOk];
    }
    out := Report(results', allOk');
  }

  method RunOpening(plan: Plan, isPlanSum: bool) returns (results: seq<Message>, allOk: bool)
    ensures results == OpeningFindings(plan, isPlanSum)
    ensures allOk == NoClearing(OpeningFindings(plan, isPlanSum))
  {
    results, allOk := CheckOrientation(plan.orientation, [], true);
    results, allOk := CheckIds(plan.courseId, plan.id, isPlanSum, results, allOk);
    NoClearingAppend(OrientationPart(plan.orientation), IdFindingsOf(plan.courseId, plan.id, isPlanSum));
  }

  method RunCt(studies: seq<Series>, image: Image, count: int, dose: real, results: seq<Message>, allOk: bool)
    returns (results': seq<Message>, allOk': bool)
    requires ValidStamp(image.series.created)
    ensures results' == results + CtFindings(studies, image, count, dose)
    ensures allOk' == (allOk && NoClearing(CtFindings(studies, image, count, dose)))
  {
    results', allOk' := RunPrescription(count, dose, image.userOrigin, results, allOk);
    ghost var acc := FractionPart(count, dose) + OriginPart(image.userOrigin);
    results', allOk' := RunCtImage(studies, image, results', allOk');
    ghost var rest := CtDatePart(image) + CtLatestPart(studies, image.series.created) +
                      [CtToRedTable(image.series.deviceId)];
    AppendStep(results, acc, rest);
    RegroupCt(FractionPart(count, dose), OriginPart(image.userOrigin), CtDatePart(image),
              CtLatestPart(studies, image.series.created), [CtToRedTable(image.series.deviceId)]);
  }

  lemma RegroupCt(a: seq<Message>, b: seq<Message>, c: seq<Message>, d: seq<Message>, e: seq<Message>)
    ensures a + b + c + d + e == (a + b) + (c + d + e)
  {
  }

  /** Blocks 2-3: the fractionation and the user origin. */
  method RunPrescription(count: int, dose: real, origin: Vec3, results: seq<Message>, allOk: bool)
    returns (results': seq<Message>, allOk': bool)
    ensures results' == results + (FractionPart(count, dose) + OriginPart(origin))
    ensures allOk' == (allOk && NoClearing(FractionPart(count, dose) + OriginPart(origin)))
  {
    results', allOk' := CheckFractionation(count, dose, results, allOk);
    results', allOk' := CheckOrigin(origin, results', allOk');
    AppendStep(results, FractionPart(count, dose), OriginPart(origin));
  }

  /** Blocks 4-6: the CT date, the latest CT and the CT to RED table. */
  method RunCtImage(studies: seq<Series>, image: Image, results: seq<Message>, allOk: bool)
    returns (results': seq<Message>, allOk': bool)
    requires ValidStamp(image.series.created)
    ensures results' == results + (CtDatePart(image) + CtLatestPart(studies, image.series.created) +
                                   [CtToRedTable(image.series.deviceId)])
    ensures allOk' == (allOk && NoClearing(CtDatePart(image) + CtLatestPart(studies, image.series.created) +
                                           [CtToRedTable(image.series.deviceId)]))
  {
    results', allOk' := CheckCtDate(image, results, allOk);
    ghost var acc := CtDatePart(image);
    results', allOk' := CheckCtLatest(studies, image.series.created, results', allOk');
    AppendStep(results, acc, CtLatestPart(studies, image.series.created));
    acc := acc + CtLatestPart(studies, image.series.created);
    results' := results' + [CtToRedTable(image.series.deviceId)];
    AppendStep(results, acc, [CtToRedTable(image.series.deviceId)]);
    NoClearingMeans([CtToRedTable(image.series.deviceId)]);
  }

  method RunDelivery(plan: Plan, ss: StructureSet, k: PlanKinds, weight: real, volumePre: bool,
                     count: int, dose: real, results: seq<Message>, allOk: bool)
    returns (results': seq<Message>, allOk': bool)
    requires |plan.beams| >= 1 && AllLeavesPresent(plan.beams)
    ensures results' == results + DeliveryFindings(plan, ss, k, weight, volumePre, count, dose)
    ensures allOk' == (allOk && NoClearing(DeliveryFindings(plan, ss, k, weight, volumePre, count, dose)))
  {
    var beams := plan.beams;
    results', allOk' := CheckElectronSettings(k, weight, plan.normalizationMethod, results, allOk);
    ghost var acc := ElectronPart(k, weight, plan.normalizationMethod);
    results', allOk' := CheckMachine(beams[0].machineId, k, ss.structures, results', allOk');
    AppendStep(results, acc, MachinePart(beams[0].machineId, k, ss.structures));
    acc := acc + MachinePart(beams[0].machineId, k, ss.structures);
    results', allOk' := CheckFields(beams, k, volumePre, results', allOk');
    AppendStep(results, acc, FieldReport(beams, k, volumePre));
    acc := acc + FieldReport(beams, k, volumePre);
    results', allOk' := ReportDoseSummary(dose, count, results', allOk');
    AppendStep(results, acc, DoseSummary(dose, count));
    acc := acc + DoseSummary(dose, count);
    results', allOk' := CheckIsocenter(beams, ss.image.userOrigin, ss.structures, results', allOk');
    AppendStep(results, acc, IsocenterPart(beams, ss.image.userOrigin, ss.structures));
  }

  /** Blocks 13 to 19, after the reference points were accepted. */
  method RunClosing(plan: Plan, ss: StructureSet, k: PlanKinds, location: Option<Vec3>,
                    results: seq<Message>, allOk: bool)
    returns (results': seq<Message>, allOk': bool)
    requires |plan.beams| >= 1
    requires Conventional(k) ==> location.Some? && AllCheckable(plan.beams, location.value)
    ensures results' == results + ClosingFindings(plan, ss, k, location)
    ensures allOk' == (allOk && NoClearing(ClosingFindings(plan, ss, k, location)))
  {
    var beams := plan.beams;
    results', allOk' := RunClosingChecks(plan, ss, k, location, results, allOk);
    ghost var acc := IsoRefPart(k, beams[0].isocenter, location) + EdgePart(beams, k, location) +
                     HuPart(k, ss.image.huAtRefPoint) + AlgorithmPart(plan, k);
    results', allOk' := RunClosingReports(plan, ss, k, results', allOk');
    ghost var rest := [Heterogeneity(plan.heterogeneity)] + BolusFindings(ss.structures, AllLinked(beams)) +
                      SsdPart(k, ElectronSsd(beams), BolusCount(ss.structures) > 0 && AllLinked(beams));
    AppendStep(results, acc, rest);
    Regroup(IsoRefPart(k, beams[0].isocenter, location), EdgePart(beams, k, location),
            HuPart(k, ss.image.huAtRefPoint), AlgorithmPart(plan, k), [Heterogeneity(plan.heterogeneity)],
            BolusFindings(ss.structures, AllLinked(beams)),
            SsdPart(k, ElectronSsd(beams), BolusCount(ss.structures) > 0 && AllLinked(beams)));
  }

  lemma Regroup(a: seq<Message>, b: seq<Message>, c: seq<Message>, d: seq<Message>, e: seq<Message>,
                f: seq<Message>, g: seq<Message>)
    ensures a + b + c + d + e + f + g == (a + b + c + d) + (e + f + g)
  {
  }

  /** Blocks 13 to 16: the reference point, the field edges, the HU value and the algorithm. */
  method RunClosingChecks(plan: Plan, ss: StructureSet, k: PlanKinds, location: Option<Vec3>,
                          results: seq<Message>, allOk: bool)
    returns (results': seq<Message>, allOk': bool)
    requires |plan.beams| >= 1
    requires Conventional(k) ==> location.Some? && AllCheckable(plan.beams, location.value)
    ensures results' == results + (IsoRefPart(k, plan.beams[0].isocenter, location) +
                                   EdgePart(plan.beams, k, location) +
                                   HuPart(k, ss.image.huAtRefPoint) + AlgorithmPart(plan, k))
    ensures allOk' == (allOk && NoClearing(IsoRefPart(k, plan.beams[0].isocenter, location) +
                                           EdgePart(plan.beams, k, location) +
                                           HuPart(k, ss.image.huAtRefPoint) + AlgorithmPart(plan, k)))
  {
    var beams := plan.beams;
    results', allOk' := CheckIsoRef(k, beams[0].isocenter, location, results, allOk);
    ghost var acc := IsoRefPart(k, beams[0].isocenter, location);
    results', allOk' := CheckEdges(beams, k, location, results', allOk');
    AppendStep(results, acc, EdgePart(beams, k, location));
    acc := acc + EdgePart(beams, k, location);
    results', allOk' := CheckHu(k, ss.image.huAtRefPoint, results', allOk');
    AppendStep(results, acc, HuPart(k, ss.image.huAtRefPoint));
    acc := acc + HuPart(k, ss.image.huAtRefPoint);
    results', allOk' := ReportAlgorithm(plan, k, results', allOk');
    AppendStep(results, acc, AlgorithmPart(plan, k));
  }

  /** Blocks 17 to 19: the heterogeneity setting, the bolus and the electron SSD. */
  method RunClosingReports(plan: Plan, ss: StructureSet, k: PlanKinds, results: seq<Message>, allOk: bool)
    returns (results': seq<Message>, allOk': bool)
    ensures results' == results + ([Heterogeneity(plan.heterogeneity)] +
                                   BolusFindings(ss.structures, AllLinked(plan.beams)) +
                                   SsdPart(k, ElectronSsd(plan.beams),
                                           BolusCount(ss.structures) > 0 && AllLinked(plan.beams)))
    ensures allOk' == (allOk && NoClearing([Heterogeneity(plan.heterogeneity)] +
                                           BolusFindings(ss.structures, AllLinked(plan.beams)) +
                                           SsdPart(k, ElectronSsd(plan.beams),
                                                   BolusCount(ss.structures) > 0 && AllLinked(plan.beams))))
  {
    var beams := plan.beams;
    results' := results + [Heterogeneity(plan.heterogeneity)];
    allOk' := allOk;
    NoClearingMeans([Heterogeneity(plan.heterogeneity)]);
    ghost var acc := [Heterogeneity(plan.heterogeneity)];
    var hasBolus, linked;
    results', allOk', hasBolus, linked := CheckBolus(ss.structures, beams, results', allOk');
    AppendStep(results, acc, BolusFindings(ss.structures, AllLinked(beams)));
    acc := acc + BolusFindings(ss.structures, AllLinked(beams));
    results', allOk' := CheckElectronSsd(k, beams, hasBolus, linked, results', allOk');
    AppendStep(results, acc, SsdPart(k, ElectronSsd(beams), hasBolus && linked));
  }

  /** Block 14: only a conventional plan has its reference point checked against the fields. */
  method CheckEdges(beams: seq<Beam>, k: PlanKinds, location: Option<Vec3>, results: seq<Message>, allOk: bool)
    returns (results': seq<Message>, allOk': bool)
    requires Conventional(k) ==> location.Some? && AllCheckable(beams, location.value)
    ensures results' == results + EdgePart(beams, k, location)
    ensures allOk' == (allOk && NoClearing(EdgePart(beams, k, location)))
  {
    if !k.electron && !k.vmat && !k.imrt && !k.sbrt {
      results', allOk' := CheckRefPointEdges(beams, location.value, results, allOk);
    } else {
      results', allOk' := results, allOk;
      NoClearingMeans([]);
    }
  }

  /** Block 16: the dose algorithm of the plan's particle type. */
  method ReportAlgorithm(plan: Plan, k: PlanKinds, results: seq<Message>, allOk: bool)
    returns (results': seq<Message>, allOk': bool)
    ensures results' == results + AlgorithmPart(plan, k)
    ensures allOk' == (allOk && NoClearing(AlgorithmPart(plan, k)))
  {
    if !k.electron {
      results' := results + [Algorithm(plan.photonModel)];
    } else {
      results' := results + [Algorithm(plan.electronModel)];
    }
    allOk' := allOk;
    NoClearingMeans(AlgorithmPart(plan, k));
  }
}
