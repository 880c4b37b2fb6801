# PlanCheck: a verified model of the plan checker

PlanCheck is an Eclipse scripting plug-in that reads one treatment plan, or every plan
of a plan sum, and reports a list of findings. Each finding is a message with a display
type (ERROR, NORMAL, HEAD, IMPORTANT, MACHINE). When none of the warnings fired, the
run closes with "This plan is probably OK.". Some defects abort the run with an
exception instead of a report.

This project models the checker's core in Dafny:

- `GetLeafEdge`: the 60-row leaf table of the multi-leaf collimator.
- `CheckRefPoint`: projects the primary reference point into the collimator plane of a
  field's first control point and classifies it against the jaws and leaves.
- `CheckPlan`, with its twenty check blocks in source order. Two flags are kept:
  - `fAllOK`, cleared by most warnings;
  - `fField`, the per-field verdict of the field loop.
- The plan-sum loop of the button handler, which runs `CheckPlan` on each plan of the
  selected sum.

## How the model is organised

- `wrappers.dfy` (`Wrappers`): `Option`, for values the planning system may leave
  undefined (null, a nullable integer, NaN).
- `text.dfy` (`Text`): three text operations.
  - Ordinal `IndexOf`.
  - The two identifier patterns `^Course([0-9]{1,2})$` and `^([0-9]{1,2})-[0-9]{1,2}-[0-9]{1,2}$`.
    In .NET, `$` also matches before a final newline, and the model does the same.
  - The six-digit `YYMMDD` date.
- `geometry.dfy` (`Geometry`): the leaf table, the couch/gantry/collimator rotations (each
  angle given by its cosine and sine), the divergence scaling, and the jaw and leaf
  classification.
- `plandata.dfy` (`PlanData`): the plan snapshot as plain records, with one constructor
  per distinct finding.
  - `ClearsAllOk` says which findings go with `fAllOK = false`.
  - `SectionOf` says which of the twenty blocks emits each finding.
  - It also holds the selections over fields and reference points that several blocks
    share.
- `fieldchecks.dfy` (`FieldChecks`): the field loop, in three layers.
  - The opening scan of the leaves.
  - The jaw/MLC tolerances and the dose-rate table per delivery technique.
  - One method per branch, `CheckField`, and the loop `CheckFields`.
- `planblocks.dfy` (`PlanBlocks`): the other blocks. Each is a specification function of
  the findings it adds and a method that appends them to `results` and updates `allOk`.
  Loops stay loops, each with its invariants.
- `ruleengine.dfy` (`RuleEngine`): the run as a whole.
  - Fatal checks: `FirstFatal`, the first exception in source order.
  - `Expected`: the outcome, either `Fatal(reason)` or `Report(results, allOk)`.
  - `CheckPlan`: the imperative run, split into stage methods at the points where
    exceptions can be thrown, and proved equal to `Expected`.
- `runproperties.dfy` (`RunProperties`): properties of a complete run.
  - A run is reported exactly when no fatal check fires.
  - The findings come block by block in source order.
  - The verdict "probably OK" appears exactly when no finding cleared `fAllOK`, and then
    last.
  - Per-message counts: origin-outside-body warnings, bolus findings, identifier
    findings, electron SSD.
- `plansum.dfy` (`PlanSumRun`): the plan-sum loop. It reports "no plan sum selected" or
  "no plans". Otherwise it checks the plans in order and stops after the first one whose
  check throws, because the exception leaves the handler.

### Representation choices

- Floating-point values are `real`.
- Distances are compared squared, with the tolerances squared to match: 0.01 mm becomes
  `0.0001`, 0.1 mm becomes `0.01`, 500 mm becomes `250000`.
- Each exception is the outcome `Fatal(reason)`. The findings collected before it are
  never shown by the source, so the model drops them too.
- An `fField` set to false by one field stays false for the next field, because only
  the static-MLC branch resets it (`PlanCheck.cs:450`). The model keeps this:
  - `FieldPasses` takes the incoming flag;
  - a later open, electron, VMAT or IMRT field that passes then gets no "ok" line and
    clears `fAllOK`.
- The dose-rate condition for 6X-FFF and 10X-FFF in the static branch is written with
  two disjuncts on `fVolumePre`, and its value does not depend on `fVolumePre`. The model
  states the simplified table.
- "Unknown treatment machine." and several other ERROR findings do not clear `fAllOK`.
  `PlanData.ClearingIsError` lists them.

## Model

| member | source | states |
|---|---|---|
| `Text.IndexOf` | PlanCheck.cs:258 | `String.IndexOf` returns -1 or an index no greater than the length of the string |
| `Text.IndexFromFirst` | PlanCheck.cs:258 | the search from a start index finds the first occurrence at or after it, and -1 exactly when there is none |
| `Text.IndexOfFirst` | PlanCheck.cs:297 | `IndexOf` is the first occurrence of the needle, and -1 exactly when the needle does not occur |
| `Text.ContainsIffOccurs` | PlanCheck.cs:340 | the `IndexOf(...) >= 0` tests used throughout hold exactly when the needle occurs somewhere |
| `Text.DropFinalNewline` | PlanCheck.cs:234 | the text matched against `$` is the input, or the input without one final newline |
| `Text.DropFinalNewlineAfterDigit` | PlanCheck.cs:234 | a text ending in a digit loses exactly its optional final newline |
| `Text.CourseIdShapeBody` | PlanCheck.cs:234-240 | every course identifier of the pattern's shape reads as "Course" followed by its number once the final newline is dropped |
| `Text.ParseCourseIdMeaning` | PlanCheck.cs:234-240 | the course number is found exactly when the identifier matches `^Course[0-9]{1,2}$`, and is then the matched group |
| `Text.FirstDash` | PlanCheck.cs:242 | gives the index of the first dash, with no dash before it (the length when there is none) |
| `Text.FirstDashOfJoin` | PlanCheck.cs:242 | in `x-y` with a dash-free `x`, the first dash is right after `x` |
| `Text.SplitAtDash` | PlanCheck.cs:242 | a split at the first dash rebuilds the text, and no split means the text has no dash |
| `Text.SplitAtDashOfJoin` | PlanCheck.cs:242 | splitting `x-y` at the first dash gives back `x` and `y` when `x` has no dash |
| `Text.ParsePlanIdMeaning` | PlanCheck.cs:242-244 | the plan's leading number is found exactly when the identifier matches `^[0-9]{1,2}-[0-9]{1,2}-[0-9]{1,2}$` |
| `Text.PlanIdShapeSplits` | PlanCheck.cs:242-244 | every identifier of the plan pattern splits at its first two dashes into the three numbers |
| `Text.Digit` | PlanCheck.cs:296 | a digit character whose value is the given digit |
| `Text.TwoDigits` | PlanCheck.cs:296 | two digit characters that read back as the number |
| `Text.YYMMDD` | PlanCheck.cs:296 | the date text of `ToString("yyyyMMdd").Substring(2)` is six digits |
| `Text.YYMMDDRoundTrip` | PlanCheck.cs:296 | the six digits read back as the year modulo 100, the month and the day |
| `Geometry.LeafEdgeSamples` | PlanCheck.cs:69-83 | row 1 spans -200..-190, row 11 spans -100..-95, row 60 spans 190..200 |
| `Geometry.LeafEdgeWidths` | PlanCheck.cs:69-83 | rows 1-10 and 51-60 are 10 mm wide, rows 11-50 are 5 mm wide |
| `Geometry.LeafRowsContiguous` | PlanCheck.cs:69-83 | each row ends where the next one begins |
| `Geometry.LeafRowsTile` | PlanCheck.cs:69-83 | rows 1..n laid side by side from the lower edge of row 1 end at the upper edge of row n |
| `Geometry.LeafRowsSpan` | PlanCheck.cs:69-83 | the 60 rows cover -200..200 mm, 400 mm in all |
| `Geometry.RowOf` | PlanCheck.cs:69-83 | every longitudinal position z with -200 <= z < 200 lies in exactly one row (200 itself is the upper edge of row 60 and has no row of its own) |
| `Geometry.CouchGantryKeepsLength` | PlanCheck.cs:95-98 | the couch-then-gantry rotation keeps the length of the offset from the isocentre |
| `Geometry.ProjectionRadius` | PlanCheck.cs:100-103 | the collimator rotation keeps the in-plane radius, and the projection scales it by 1000/(1000+y) |
| `Geometry.ProjectionAtZeroAngles` | PlanCheck.cs:87-103 | with all angles zero and the point at isocentre height, the projection is the plain x/z offset |
| `Geometry.MlcClassify` | PlanCheck.cs:112-154 | the leaf test gives 0 or 1, and 0 for points beyond 195 mm from the centre |
| `Geometry.BandLeafIsRow` | PlanCheck.cs:114-147 | the leaf index the source computes in each band (`Floor(z/10)+20`, `Floor(z/5)+30`, `Floor(z/10)+40`, the end rows) is the row holding z |
| `Geometry.MlcClassifyByRow` | PlanCheck.cs:112-154 | the leaf test is 1 exactly when the point is within 5 mm of its own row's leaves or, for a neighbour row the source checks, crosses that row's leaves |
| `Geometry.Classify` | PlanCheck.cs:105-155 | needs leaves only where it reads any (at least 5 mm inside the jaws, -195 <= z <= 195), and there all 60 pairs; 2 exactly when the point is outside the jaws; 1 exactly when inside but within 5 mm of a jaw or failing the leaf test; without MLC, 0 exactly when at least 5 mm inside all jaws |
| `Geometry.ClassifyExamples` | PlanCheck.cs:105-155 | a centred point is 0, one 2 mm inside a jaw is 1, one outside is 2 |
| `Geometry.CheckRefPoint` | PlanCheck.cs:85-156 | the result is 0..2, and 2 exactly when the projected point lies outside the jaws of the first control point |
| `PlanData.ClearingIsError` | PlanCheck.cs:225-785 | every finding that clears `fAllOK` is an ERROR; the ERROR findings that do not clear it are among the identifier, electron-setting, unknown-machine, location-not-needed, low-HU and edge findings |
| `PlanData.NoClearingMeans` | PlanCheck.cs:225-785 | `fAllOK` survives a list of findings exactly when no finding in it clears `fAllOK` |
| `PlanData.TreatmentCount` | PlanCheck.cs:345 | `numberOfBeams` is at most the number of fields, and 0 exactly when every field is a setup field |
| `PlanData.KindsOf` | PlanCheck.cs:329-349 | electron exactly when an electron candidate precedes the first MLC treatment field; IMRT, SBRT and VMAT by the MLC plan type (SBRT also needs target normalisation); the three are exclusive |
| `PlanData.CandidateWeightIsLast` | PlanCheck.cs:340-343 | the electron weight is that of the last electron candidate, 0 when there is none |
| `PlanData.RefPointsOf` | PlanCheck.cs:654-665 | the reference points are those of the first treatment field when there is one |
| `FieldChecks.MinOpenBankA` | PlanCheck.cs:459-465 | `MinX` is at most 200, is a lower bound of bank A over pairs open by more than 0.01 mm, and is one of them unless it stays 200 |
| `FieldChecks.MaxOpenBankB` | PlanCheck.cs:459-465 | `MaxX` is at least -200, is an upper bound of bank B over the open pairs, and is one of them unless it stays -200 |
| `FieldChecks.ExtentRows` | PlanCheck.cs:453-476 | with a pair open by more than 0.3 mm, `1 <= MinY <= MaxY <= 60`; with none, the defaults 60 and 0 stay; with no pair open by 0.01 mm, `MinX` and `MaxX` stay 200 and -200 |
| `FieldChecks.ScanLeafExtent` | PlanCheck.cs:453-476 | the two leaf loops compute the opening extent |
| `FieldChecks.ScanOpening` | PlanCheck.cs:459-465 | the first loop computes `MinX` and `MaxX` |
| `FieldChecks.ScanRows` | PlanCheck.cs:466-476 | the second loop computes `MinY`, the first wide row walking up from row 1 (the Y1 end, z = -200 mm), and `MaxY`, the first wide row walking down from row 60 (the Y2 end, z = 200 mm) |
| `FieldChecks.JawFindingsMembers` | PlanCheck.cs:482-498 | each of the four jaw warnings is reported exactly when its tolerance test fails |
| `FieldChecks.JawFindingsAre` | PlanCheck.cs:482-498 | the jaw block reports nothing but the four jaw warnings |
| `FieldChecks.JawFindingsExamples` | PlanCheck.cs:477-498 | matching jaws give no warning; X1 3 mm out gives the X1 warning; Y1 inside its leaf row gives the Y1 warning |
| `FieldChecks.JawCheck` | PlanCheck.cs:477-498 | the jaw/MLC block of a static field reports the jaw findings of the scanned extent |
| `FieldChecks.XJawCheck` | PlanCheck.cs:482-490 | X1 then X2 warnings, each when its jaw is more than 2 mm from the MLC extent |
| `FieldChecks.YJawCheck` | PlanCheck.cs:491-498 | Y1 then Y2 warnings, against the leaf edges of `MinY` and `MaxY` |
| `FieldChecks.FieldWarningsClear` | PlanCheck.cs:482-568 | a field's warnings leave `fAllOK` alone exactly when there are none |
| `FieldChecks.DoseRateWarningOnce` | PlanCheck.cs:500-611 | a field gets at most one dose-rate warning; it names the field's rate, and it comes exactly when the rate differs from the table's rate for the technique, energy and normalisation |
| `FieldChecks.ZeroWeightWarning` | PlanCheck.cs:524-568 | the 0 MU warning comes exactly when a static, open or electron field has weight 0 |
| `FieldChecks.JawWarnings` | PlanCheck.cs:477-498 | static fields get each jaw warning exactly when its test fails; fields of other techniques never get one |
| `FieldChecks.StaticDoseRateWrong` | PlanCheck.cs:500-522 | the static branch's dose-rate test fails exactly when the rate differs from the table |
| `FieldChecks.StaticFieldWarnings` | PlanCheck.cs:449-528 | the static-MLC branch reports the field's jaw, dose-rate and weight warnings |
| `FieldChecks.OpenFieldWarnings` | PlanCheck.cs:533-552 | the no-MLC branch reports the dose-rate and weight warnings |
| `FieldChecks.ElectronFieldWarnings` | PlanCheck.cs:556-568 | the electron branch reports the dose-rate and weight warnings |
| `FieldChecks.VmatFieldWarnings` | PlanCheck.cs:572-595 | the VMAT branch reports the dose-rate warning only |
| `FieldChecks.ImrtFieldWarnings` | PlanCheck.cs:598-611 | the IMRT branch reports the dose-rate warning only |
| `FieldChecks.CheckField` | PlanCheck.cs:446-614 | one treatment field appends its header, warnings and (when `fField` holds) its "ok" line; `allOk` falls exactly when a branch ran and `fField` ended false |
| `FieldChecks.FieldSegmentClearing` | PlanCheck.cs:446-614 | a field's findings clear `fAllOK` exactly when some branch ran and reported a warning |
| `FieldChecks.FieldFlagFalseClears` | PlanCheck.cs:441-616 | when `fField` ends false, some finding of the loop cleared `fAllOK` |
| `FieldChecks.FieldSegmentShape` | PlanCheck.cs:446-614 | a field's findings all belong to the field block and hold exactly one field header |
| `FieldChecks.FieldReportShape` | PlanCheck.cs:441-616 | the loop's findings all belong to the field block and hold one header per treatment field |
| `FieldChecks.CheckFields` | PlanCheck.cs:441-616 | the loop appends the field report and clears `allOk` exactly when a finding of the report clears it |
| `PlanBlocks.CheckOrientation` | PlanCheck.cs:225-231 | a warning, clearing `fAllOK`, unless the orientation is head-first supine (1) |
| `PlanBlocks.IdPartMembers` | PlanCheck.cs:233-254 | course-format error exactly without a course number; plan-format error exactly without a plan number; mismatch exactly when the numbers differ; plan ID line exactly in a plan sum |
| `PlanBlocks.IdFormatFindings` | PlanCheck.cs:233-254 | the format errors appear exactly when the identifiers do not match their patterns |
| `PlanBlocks.IdMismatchFinding` | PlanCheck.cs:242-249 | the mismatch error appears exactly when the plan identifier matches but its first number is not the course number |
| `PlanBlocks.IdPartKeepsAllOk` | PlanCheck.cs:233-254 | the identifier findings never clear `fAllOK` |
| `PlanBlocks.CheckIds` | PlanCheck.cs:233-254 | the identifier block appends the findings of the two pattern matches |
| `PlanBlocks.ReportIds` | PlanCheck.cs:237-254 | the branches on the two match results append the identifier findings |
| `PlanBlocks.CheckFractionation` | PlanCheck.cs:276-286 | a warning for more than 49 fractions and one for less than 100 cGy per fraction, each clearing `fAllOK` |
| `PlanBlocks.CtDateFindings` | PlanCheck.cs:294-302 | the missing-date warning appears exactly when the six-digit YYMMDD creation date does not occur in the image ID; the creation-date line appears exactly when it does |
| `PlanBlocks.CheckOrigin` | PlanCheck.cs:288-292 | a warning, clearing `fAllOK`, when the CT user origin is not (0, 0, 0) |
| `PlanBlocks.CheckCtDate` | PlanCheck.cs:294-302 | the CT-date block appends its one finding, clearing `fAllOK` only for the warning |
| `PlanBlocks.CheckCtLatest` | PlanCheck.cs:304-320 | the not-latest warning appears, and `fAllOK` falls, exactly when some study with an imaging device, not an ARIA RadOnc study, was created later on another day |
| `PlanBlocks.ClassifyPlan` | PlanCheck.cs:329-349 | the plan-type loop computes the plan kinds, the treatment-field count and the electron weight |
| `PlanBlocks.ScanCount` | PlanCheck.cs:345 | the loop counts the treatment fields |
| `PlanBlocks.ScanBeforeMlc` | PlanCheck.cs:335-344 | before any MLC treatment field the plan type stays 0, the electron flag says whether a candidate was seen, and the weight is the last candidate's |
| `PlanBlocks.ScanFrozen` | PlanCheck.cs:336-339 | once a plan type is taken, the later fields change neither it, nor the electron flag, nor the weight |
| `PlanBlocks.ScanMeaning` | PlanCheck.cs:329-346 | the loop's plan type, electron flag and weight are the plan's |
| `PlanBlocks.ScanFields` | PlanCheck.cs:329-346 | the loop over the fields computes plan type, electron flag, weight and field count |
| `PlanBlocks.CheckElectronSettings` | PlanCheck.cs:356-359 | an electron plan gets a warning for a weight other than 1.0 and one for a normalisation method that does not contain "No plan"; neither clears `fAllOK` |
| `PlanBlocks.LastNamed` | PlanCheck.cs:373-378 | the last structure whose ID contains the name, and none exactly when no ID contains it |
| `PlanBlocks.MachineOf` | PlanCheck.cs:366-437 | an unknown machine exactly when the ID is none of the five known ones |
| `PlanBlocks.MachineHeader` | PlanCheck.cs:362-439 | the room header comes first, then a room label for a known machine, or the unknown-machine error exactly for an unknown one |
| `PlanBlocks.MachineCouch` | PlanCheck.cs:362-439 | the no-couch warning appears exactly for a Clinac VMAT plan without a "CouchGrid" structure or a non-electron TrueBeam plan without "CouchInterior"; the block clears `fAllOK` exactly then |
| `PlanBlocks.CouchPartMeaning` | PlanCheck.cs:371-436 | the couch part of the room block warns exactly in those two cases and clears `fAllOK` exactly when it warns |
| `PlanBlocks.CouchFindingMeaning` | PlanCheck.cs:371-384 | the no-couch warning appears exactly when no structure ID contains the name, and it alone clears `fAllOK` |
| `PlanBlocks.FindCouch` | PlanCheck.cs:373-378 | the structure loop finds a couch exactly when some ID contains the name, and the centre is the last match's x in cm |
| `PlanBlocks.ReportCouch` | PlanCheck.cs:373-384 | the couch search followed by the warning or the couch-centre line |
| `PlanBlocks.CheckRoom` | PlanCheck.cs:366-439 | the machine branches append the room label and the couch findings of the machine |
| `PlanBlocks.ReportClinac` | PlanCheck.cs:367-385 | a Clinac room: the room label, then the CouchGrid search in VMAT plans |
| `PlanBlocks.ReportTrueBeam` | PlanCheck.cs:420-436 | the TrueBeam room: the label, then the CouchInterior search unless the plan is electron |
| `PlanBlocks.CheckMachine` | PlanCheck.cs:362-439 | the room block appends the header and the room findings of the first field's machine |
| `PlanBlocks.ReportDoseSummary` | PlanCheck.cs:617-625 | the closing line of the fields and the dose per fraction, fraction count and total dose lines, none clearing `fAllOK` |
| `PlanBlocks.ExcludingCount` | PlanCheck.cs:640-645 | the count of EXTERNAL structures leaving the origin outside is 0 exactly when there are none |
| `PlanBlocks.OutsideBodyCount` | PlanCheck.cs:640-645 | one outside-body warning per EXTERNAL structure that leaves the CT origin outside |
| `PlanBlocks.CheckOriginInBody` | PlanCheck.cs:639-645 | the structure loop appends those warnings, each clearing `fAllOK` |
| `PlanBlocks.SameIsocenter` | PlanCheck.cs:630-634 | the loop's flag holds exactly when every field's isocentre is at distance 0 from the first one |
| `PlanBlocks.CheckIsocenter` | PlanCheck.cs:628-651 | the isocentre block appends the multiple-isocentre, outside-body and distance warnings |
| `PlanBlocks.CheckSameIsocenter` | PlanCheck.cs:628-638 | a warning, clearing `fAllOK`, when some isocentre differs from the first field's |
| `PlanBlocks.CheckOriginDistance` | PlanCheck.cs:646-651 | a warning, clearing `fAllOK`, when the isocentre is more than 500 mm from the CT origin |
| `PlanBlocks.SelectRefPoints` | PlanCheck.cs:654-665 | the reference points are those of the first treatment field, or of the first field when all are setup fields |
| `PlanBlocks.FindPrimary` | PlanCheck.cs:666-673 | there are reference points exactly when the list is not empty, a primary one exactly when one is marked primary, and the location is the last primary's |
| `PlanBlocks.PrimaryLocationIsLast` | PlanCheck.cs:666-673 | with a primary point present, the location is that of the last primary point |
| `PlanBlocks.IsoRefFindings` | PlanCheck.cs:696-711 | at most one finding; the warning exactly when isocentre and primary point are more than 0.1 mm apart outside electron, VMAT and IMRT; conventional plans always get a line; an SBRT plan 0.1 mm off gets the warning |
| `PlanBlocks.CheckNormalization` | PlanCheck.cs:690-694 | a conventional plan whose dose at the primary point differs from the prescription by more than 1e-5 gets the normalisation warning |
| `PlanBlocks.CheckIsoRef` | PlanCheck.cs:696-711 | the iso/reference block appends its finding |
| `PlanBlocks.EdgeNearMeaning` | PlanCheck.cs:712-725 | the too-close warning for a field appears exactly when that treatment field classifies the point as 1 |
| `PlanBlocks.NoLeafReadIsCheckable` | PlanCheck.cs:105-112 | where the classification reads no leaf, a field of any leaf count is checkable, and a point outside its jaws is classified 2 |
| `PlanBlocks.EdgeOutsideMeaning` | PlanCheck.cs:712-725 | the outside warning for a field appears exactly when that treatment field classifies the point as 2 |
| `PlanBlocks.EdgeFindingsKeepAllOk` | PlanCheck.cs:712-725 | the edge warnings never clear `fAllOK` |
| `PlanBlocks.CheckRefPointEdges` | PlanCheck.cs:716-724 | the field loop appends one edge finding per treatment field that classifies the point as 1 or 2 |
| `PlanBlocks.CheckHu` | PlanCheck.cs:726-737 | a conventional plan with HU below -300 at the reference point gets a warning that does not clear `fAllOK` |
| `PlanBlocks.BolusCount` | PlanCheck.cs:748-749 | the number of BOLUS structures is 0 exactly when there is none |
| `PlanBlocks.BolusFindingsCount` | PlanCheck.cs:747-761 | with every treatment field linked, one confirmation per BOLUS structure and no warning; otherwise one warning per BOLUS structure and no confirmation |
| `PlanBlocks.BolusFindingsClearing` | PlanCheck.cs:747-761 | the bolus block clears `fAllOK` exactly when some field is unlinked and a BOLUS structure exists |
| `PlanBlocks.LinkScan` | PlanCheck.cs:751-753 | the inner loop leaves the link flag true exactly when it was and every treatment field has a bolus |
| `PlanBlocks.CheckBolus` | PlanCheck.cs:747-761 | the structure loop appends the bolus findings; `fHasBolus` holds exactly when a BOLUS structure exists, and then `fLinkBolus` says whether all fields are linked |
| `PlanBlocks.LastTreatmentSsd` | PlanCheck.cs:766-770 | the SSD used is that of the last treatment field, 0 when there is none |
| `PlanBlocks.CheckElectronSsd` | PlanCheck.cs:763-785 | the SSD block appends, for electron plans, the warning of the last treatment field's SSD in the bolus case given by `fHasBolus` and `fLinkBolus` |
| `RuleEngine.OpeningFatal` | PlanCheck.cs:186-199 | no exception here exactly when the plan has dose and a structure set |
| `RuleEngine.CtFatal` | PlanCheck.cs:260-274 | no exception here exactly when fractions and dose per fraction are given |
| `RuleEngine.DeliveryFatal` | PlanCheck.cs:351-355 | an exception exactly for an electron plan with more than one treatment field |
| `RuleEngine.RefPointFatal` | PlanCheck.cs:675-689 | no reference point gives `NoRefPoints`; reference points without a primary give `NoPrimaryRefPoint`; outside VMAT and IMRT, a located primary point more than 0.01 mm from the normalisation point gives `PrimaryNotNormalizationPoint`; each exactly under its condition |
| `RuleEngine.FieldFatal` | PlanCheck.cs:363 | reading the first field's machine fails exactly for a plan without fields |
| `RuleEngine.ClosingFatal` | PlanCheck.cs:696-701 | an exception exactly for a conventional plan whose primary point has no location |
| `RuleEngine.FirstFatal` | PlanCheck.cs:184-701 | defined for every plan, with or without fields; no exception is thrown exactly when none of the six groups of fatal checks fires, the missing first field (363) checked after the electron field count and before the reference points |
| `RuleEngine.Completion` | PlanCheck.cs:787 | "This plan is probably OK." is appended, and `allOk` holds, exactly when no finding cleared `fAllOK` |
| `RuleEngine.CtStage` | PlanCheck.cs:260-327 | past the prescription checks, the run continues with the fractionation and CT findings |
| `RuleEngine.DeliveryStage` | PlanCheck.cs:351-652 | past the electron field-count check, the run continues with the delivery findings |
| `RuleEngine.RefPointStage` | PlanCheck.cs:675-694 | past the reference-point checks, the run continues with the normalisation finding |
| `RuleEngine.ClosingStage` | PlanCheck.cs:696-787 | past the location check, the run closes with the closing findings and the verdict |
| `RuleEngine.StagesMeanExpected` | PlanCheck.cs:184-787 | running the stages one after another is the run's outcome |
| `RuleEngine.CheckPlan` | PlanCheck.cs:184-787 | the imperative run returns the first exception, or the findings in order with the verdict |
| `RuleEngine.CheckPlanCt` | PlanCheck.cs:260-787 | the run from the prescription checks on |
| `RuleEngine.CheckPlanDelivery` | PlanCheck.cs:351-787 | the run from the electron field-count check on, failing at the first field's machine when there is no field |
| `RuleEngine.CheckPlanRefPoints` | PlanCheck.cs:654-787 | the run from the reference-point selection on |
| `RuleEngine.CheckPlanClosing` | PlanCheck.cs:696-787 | the run from the location check on |
| `RuleEngine.RunOpening` | PlanCheck.cs:225-254 | the orientation and identifier blocks, starting from `fAllOK = true` |
| `RuleEngine.RunCt` | PlanCheck.cs:276-326 | the fractionation, origin, CT date, latest-CT and CT-to-RED blocks |
| `RuleEngine.RunPrescription` | PlanCheck.cs:276-292 | the fractionation and origin blocks, in that order |
| `RuleEngine.RunCtImage` | PlanCheck.cs:294-326 | the CT date, latest-CT and CT-to-RED blocks, in that order |
| `RuleEngine.RunDelivery` | PlanCheck.cs:356-651 | the electron, room, field, dose and isocentre blocks |
| `RuleEngine.RunClosing` | PlanCheck.cs:696-785 | the blocks after the location check, in order |
| `RuleEngine.RunClosingChecks` | PlanCheck.cs:696-741 | the iso/reference, edge, HU and algorithm blocks |
| `RuleEngine.RunClosingReports` | PlanCheck.cs:742-785 | the heterogeneity, bolus and SSD blocks |
| `RuleEngine.CheckEdges` | PlanCheck.cs:712-725 | the edge block runs only for conventional plans |
| `RuleEngine.ReportAlgorithm` | PlanCheck.cs:738-741 | the electron model for electron plans, the photon model otherwise |
| `RunProperties.PartsSectioned` | PlanCheck.cs:225-785 | the twenty blocks each emit only findings of their own section |
| `RunProperties.FindingsAreParts` | PlanCheck.cs:225-785 | a run's findings are its twenty blocks one after another |
| `RunProperties.CompletionOccurrences` | PlanCheck.cs:225-787 | in a completed run a finding occurs as often as its own block emits it |
| `RunProperties.VerdictOf` | PlanCheck.cs:787 | `allOk` holds exactly when no reported finding clears it, and exactly when "probably OK" is reported, which is then last |
| `RunProperties.ReportIffNoFatal` | PlanCheck.cs:184-787 | a run is reported exactly when no fatal check fires, and otherwise fails with the first fatal reason |
| `RunProperties.FieldlessPlanAborts` | PlanCheck.cs:184-363 | a plan without fields is accepted and fails on its dose, structure set or prescription, or else at its first field |
| `RunProperties.ReportIsCompletion` | PlanCheck.cs:184-787 | a reported run is the verdict on its twenty blocks in order |
| `RunProperties.ReportInSourceOrder` | PlanCheck.cs:225-787 | the findings of a reported run come in the order of the blocks that emit them |
| `RunProperties.ReportOccurrences` | PlanCheck.cs:225-787 | in a reported run each finding occurs as often as its block emits it |
| `RunProperties.ReportVerdict` | PlanCheck.cs:787 | in a reported run `allOk` holds exactly when no finding clears it, exactly when "probably OK" is reported, and "probably OK" is then the last line |
| `RunProperties.ReportMember` | PlanCheck.cs:225-785 | a finding is in a reported run exactly when its own block emitted it |
| `RunProperties.OutsideBodyBlock` | PlanCheck.cs:639-645 | the isocentre block holds one outside-body warning per EXTERNAL structure leaving the origin outside |
| `RunProperties.ReportOriginOutsideBody` | PlanCheck.cs:639-645 | a reported run holds one outside-body warning per EXTERNAL structure leaving the origin outside |
| `RunProperties.BolusBlock` | PlanCheck.cs:747-761 | the bolus block holds one confirmation per BOLUS structure when all fields are linked, one warning per BOLUS structure otherwise |
| `RunProperties.ReportBolus` | PlanCheck.cs:747-761 | a reported run holds exactly those bolus confirmations and warnings |
| `RunProperties.ElectronReportHasOneField` | PlanCheck.cs:351-355 | a reported electron plan has exactly one treatment field |
| `RunProperties.SsdPartMembers` | PlanCheck.cs:771-784 | in an electron plan, the 100 cm warning appears exactly without linked bolus and the SSD outside (999.5, 1000.5]; the 100.5 cm warning appears exactly with linked bolus and the SSD outside (1004.5, 1005.5] |
| `RunProperties.SsdBlock` | PlanCheck.cs:763-785 | the SSD block of an electron plan warns in exactly those cases, for the last treatment field's SSD |
| `RunProperties.ElectronSsdReport` | PlanCheck.cs:763-785 | a reported electron plan holds the SSD warnings in exactly those cases |
| `RunProperties.IdBlock` | PlanCheck.cs:233-254 | the identifier block holds each identifier finding exactly under its pattern condition |
| `RunProperties.ReportIds` | PlanCheck.cs:233-254 | a reported run holds each identifier finding exactly under its pattern condition |
| `PlanSumRun.EachOutcomeAt` | PlanCheck.cs:1084-1088 | checking every plan of the sum gives one outcome per plan, that of `CheckPlan` in plan-sum mode |
| `PlanSumRun.StopAtFatalShape` | PlanCheck.cs:1084-1088 | the outcomes up to the first exception: a prefix in which only the last can be fatal, which is fatal when plans were left unchecked, and not empty for a non-empty sum |
| `PlanSumRun.StopAtFirstFatal` | PlanCheck.cs:1084-1088 | the run ends with the first plan whose check throws |
| `PlanSumRun.StopAtFatalPrefix` | PlanCheck.cs:1084-1088 | the plans after the one that throws are never checked |
| `PlanSumRun.StopAtFatalNone` | PlanCheck.cs:1084-1088 | without an exception every plan is checked |
| `PlanSumRun.SumOutcomesShape` | PlanCheck.cs:1084-1088 | the loop checks the plans in order; only the last checked can be fatal; it stops early only after a fatal plan |
| `PlanSumRun.SumChecksUpToFirstFatal` | PlanCheck.cs:1084-1088 | when plan j is the first to throw, exactly plans 0..j are checked, and the last outcome is plan j's exception |
| `PlanSumRun.SumChecksAll` | PlanCheck.cs:1084-1088 | when no plan throws, every plan is checked |
| `PlanSumRun.SumReportsNamePlans` | PlanCheck.cs:250-254 | every report of the plan-sum loop carries its plan's "Plan ID is..." line |
| `PlanSumRun.CheckEachPlan` | PlanCheck.cs:1084-1088 | the foreach loop computes the outcomes of the plans up to and including the first exception |
| `PlanSumRun.CheckPlanSum` | PlanCheck.cs:1070-1090 | the handler reports a missing plan sum, then an empty one, and otherwise checks its plans |

## Left out

- Windows, message boxes, `Sleep`, result printing and the plan-sum window are left out.
  So are the `Execute` entry point, which fails when no plan is open, and the course and
  plan-sum selection. The model covers only what `CheckPlan` computes and the loop over
  the selected sum.
- Trigonometry: each rotation is a parameter pair (cosine, sine). `IsRotation` requires
  only that cos² + sin² = 1. The conversion from degrees is not modelled.
- Floating point: values are reals. Wrap-around, rounding and single-precision `float`
  arithmetic are not modelled.
- NaN is modelled as `None` where the source tests it:
  - the reference point location;
  - the dose per fraction;
  - the normalisation point.
  A NaN dose at the primary reference point, for which the source's comparison emits no
  warning, is not modelled; that dose is a plain number.
- Message texts and their formatting (`{0:f1}`) are not modelled. Each finding is a
  constructor carrying the values the text is formatted from.
- `IndexOf` in .NET is culture-sensitive. The model uses ordinal matching, which agrees
  on the ASCII identifiers the checker compares.
- Calls into the planning system are inputs of the snapshot: `IsPointInsideSegment`,
  `GetImageProfile` and `TryGetValue`. Only the value each call gives is kept.
- Nullable dates: the model has no missing dates. A missing study date in the source
  causes an `InvalidOperationException` from the cast.
- Times are compared down to the second of the day. Sub-second ticks are left out.
- Only the first control point of a field is read, as in the source.
- The loop variable `datetime`, initialised from `DateTime.Now`, is overwritten before
  use. The clock is not modelled.
- `RuleEngine.CheckPlan`: requires `WellFormed`, which excludes four kinds of input:
  - a static MLC treatment field with other than 60 leaf pairs:
    - with fewer, the scan at lines 460-476 indexes past the end and throws a runtime
      error;
    - with more, the source scans only the first 60, and the model's scan functions,
      which range over the whole sequence, do not capture this.

    Setup fields are not required to have any, because the source never scans them.
  - in a conventional plan with a located primary point, an MLC treatment field (of any
    MLC plan type) with fewer than 60 leaf pairs, where `CheckRefPoint` reads any of them:
    - its leaf reads (lines 112-151) happen only for a point more than 5 mm inside the
      jaws with -195 <= z <= 195;
    - there the model demands all 60 pairs;
    - the source throws a runtime error only where a row it reads lies beyond the
      field's pairs. So some fields it classifies without error are excluded too: for
      example a 59-pair field with the point in -100 <= z < 100, where lines 128-135 read
      rows up to 50;
    - elsewhere, for example outside the jaws, any leaf count is admitted
      (`PlanBlocks.NoLeafReadIsCheckable`).
  - a CT creation date outside the calendar. Such a date has no .NET `DateTime`, so
    it is a limit of the representation, not a case the source handles.
  - in a conventional plan with a located primary point, a point exactly in the plane
    of a treatment field's source (depth -1000 mm). There the divergence scale
    1000/(1000+y) of line 101 is infinite or NaN in `double`. The source throws
    nothing and goes on with a classification the model does not reproduce.
  A plan without fields is not excluded. Reading its first field's machine at line 363
  throws a runtime error, and the model ends that run with `Fatal(NoFields)`.
- `RuleEngine.CheckPlan`: runs in stage methods. Each stage ends where the source can
  throw, and its contract is the outcome of the rest of the run. The single method body
  of the source is not kept as one method.
- `PlanSumRun.CheckPlanSum`: every plan of a sum must be `WellFormed`, as for
  `RuleEngine.CheckPlan`. Of the runtime errors, only the missing first field is
  modelled.
