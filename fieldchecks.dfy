/** The per-field loop of CheckPlan (PlanCheck.cs:441-616): the MLC opening scan of a
    static field, the jaw/MLC tolerances, the dose-rate table, the zero-weight check and
    the fold of each field's result into "ok" and fAllOK. */
module FieldChecks {
  import opened Wrappers
  import opened Text
  import opened Geometry
  import opened PlanData

  function Abs(x: real): real { if x < 0.0 then -x else x }

  /** The leaf pair is open by more than thr mm. */
  predicate Open(p: LeafPair, thr: real) { p.bankB - p.bankA > thr }

  predicate IsWide(p: LeafPair) { Open(p, 0.3) }

  // ---------------------------------------------------------------------------
  // The opening scan (PlanCheck.cs:453-476)

  /** MinX: the smallest bank-A position over pairs open by more than 0.01 mm, 200 if none. */
  function MinOpenBankA(ls: seq<LeafPair>): (m: real)
    ensures m <= 200.0
    ensures forall i :: 0 <= i < |ls| && Open(ls[i], 0.01) ==> m <= ls[i].bankA
    ensures m == 200.0 || exists i :: 0 <= i < |ls| && Open(ls[i], 0.01) && m == ls[i].bankA
  {
    if |ls| == 0 then 200.0
    else
      var m := MinOpenBankA(ls[..|ls| - 1]);
      var p := ls[|ls| - 1];
      if Open(p, 0.01) && m > p.bankA then p.bankA else m
  }

  /** MaxX: the largest bank-B position over pairs open by more than 0.01 mm, -200 if none. */
  function MaxOpenBankB(ls: seq<LeafPair>): (m: real)
    ensures m >= -200.0
    ensures forall i :: 0 <= i < |ls| && Open(ls[i], 0.01) ==> m >= ls[i].bankB
    ensures m == -200.0 || exists i :: 0 <= i < |ls| && Open(ls[i], 0.01) && m == ls[i].bankB
  {
    if |ls| == 0 then -200.0
    else
      var m := MaxOpenBankB(ls[..|ls| - 1]);
      var p := ls[|ls| - 1];
      if Open(p, 0.01) && m < p.bankB then p.bankB else m
  }

  /** MinY: the 1-based row of the first pair open by more than 0.3 mm, 60 if none. */
  function MinRow(ls: seq<LeafPair>): int {
    var k := FirstWhere(ls, IsWide);
    if k < |ls| then k + 1 else 60
  }

  /** MaxY: the 1-based row of the last pair open by more than 0.3 mm, 0 if none. */
  function MaxRow(ls: seq<LeafPair>): int {
    var l := LastWhere(ls, IsWide);
    if l.Some? then l.value + 1 else 0
  }

  datatype Extent = Extent(minX: real, maxX: real, minY: int, maxY: int)

  function ExtentOf(ls: seq<LeafPair>): Extent {
    Extent(MinOpenBankA(ls), MaxOpenBankB(ls), MinRow(ls), MaxRow(ls))
  }

  /** With some row open by more than 0.3 mm, MinY and MaxY are rows and MinY <= MaxY;
      with none, the scan keeps its defaults. */
  lemma ExtentRows(ls: seq<LeafPair>)
    requires |ls| == 60
    ensures (exists i :: 0 <= i < 60 && IsWide(ls[i])) ==> 1 <= MinRow(ls) <= MaxRow(ls) <= 60
    ensures (forall i :: 0 <= i < 60 ==> !IsWide(ls[i])) ==> MinRow(ls) == 60 && MaxRow(ls) == 0
    ensures (forall i :: 0 <= i < 60 ==> !Open(ls[i], 0.01)) ==> MinOpenBankA(ls) == 200.0 && MaxOpenBankB(ls) == -200.0
  {
    if exists i :: 0 <= i < 60 && IsWide(ls[i]) {
      var l := LastWhere(ls, IsWide);
      assert l.Some?;
      assert FirstWhere(ls, IsWide) <= l.value;
    }
  }

  /** The two scanning loops of a static field, over its 60 leaf pairs. */
  method ScanLeafExtent(leaves: seq<LeafPair>) returns (e: Extent)
    requires |leaves| == 60
    ensures e == ExtentOf(leaves)
  {
    var minX, maxX := ScanOpening(leaves);
    var minY, maxY := ScanRows(leaves);
    e := Extent(minX, maxX, minY, maxY);
  }

  /** The first loop: the outermost bank positions of the open pairs. */
  method ScanOpening(leaves: seq<LeafPair>) returns (minX: real, maxX: real)
    requires |leaves| == 60
    ensures minX == MinOpenBankA(leaves) && maxX == MaxOpenBankB(leaves)
  {
    minX := 200.0;
    maxX := -200.0;
    var i := 0;
    while i < 60
      invariant 0 <= i <= 60
      invariant minX == MinOpenBankA(leaves[..i]) && maxX == MaxOpenBankB(leaves[..i])
    {
      assert leaves[..i + 1][..i] == leaves[..i];
      if leaves[i].bankB - leaves[i].bankA > 0.01 {
        if minX > leaves[i].bankA { minX := leaves[i].bankA; }
        if maxX < leaves[i].bankB { maxX := leaves[i].bankB; }
      }
      i := i + 1;
    }
    assert leaves[..60] == leaves;
  }

  /** The second loop: walking up from row 1 (the Y1 end, z = -200 mm) the first wide row
      is MinY; walking down from row 60 (the Y2 end, z = 200 mm) the first wide row is MaxY. */
  method ScanRows(leaves: seq<LeafPair>) returns (minY: int, maxY: int)
    requires |leaves| == 60
    ensures minY == MinRow(leaves) && maxY == MaxRow(leaves)
  {
    minY := 60;
    maxY := 0;
    var fMinY := false;
    var fMaxY := false;
    ghost var first := FirstWhere(leaves, IsWide);
    ghost var last := LastWhere(leaves, IsWide);
    var i := 0;
    while i < 60
      invariant 0 <= i <= 60
      invariant fMinY <==> first < i
      invariant minY == if fMinY then first + 1 else 60
      invariant fMaxY <==> last.Some? && last.value >= 60 - i
      invariant maxY == if fMaxY then last.value + 1 else 0
    {
      if leaves[i].bankB - leaves[i].bankA > 0.3 && !fMinY {
        minY := i + 1;
        fMinY := true;
      }
      if leaves[59 - i].bankB - leaves[59 - i].bankA > 0.3 && !fMaxY {
        maxY := 60 - i;
        fMaxY := true;
      }
      i := i + 1;
    }
  }


  // ---------------------------------------------------------------------------
  // Jaw/MLC tolerances (PlanCheck.cs:477-500)

  predicate X1Off(j: Jaws, e: Extent) { Abs(j.x1 - e.minX) > 2.0 }
  predicate X2Off(j: Jaws, e: Extent) { Abs(j.x2 - e.maxX) > 2.0 }
  /** Y1 more than 2 mm below the lower edge of row MinY, or above its upper edge. */
  predicate Y1Off(j: Jaws, e: Extent) { j.y1 - LeafEdge(e.minY).lo < -2.0 || j.y1 > LeafEdge(e.minY).hi }
  /** Y2 more than 2 mm above the upper edge of row MaxY, or below its lower edge. */
  predicate Y2Off(j: Jaws, e: Extent) { LeafEdge(e.maxY).hi - j.y2 < -2.0 || j.y2 < LeafEdge(e.maxY).lo }

  function JawFindings(j: Jaws, e: Extent): seq<Message> {
    (if X1Off(j, e) then [CheckX1] else []) + (if X2Off(j, e) then [CheckX2] else []) +
    (if Y1Off(j, e) then [CheckY1] else []) + (if Y2Off(j, e) then [CheckY2] else [])
  }

  /** A jaw warning is there exactly on its tolerance condition. */
  lemma JawFindingsMembers(j: Jaws, e: Extent)
    ensures CheckX1 in JawFindings(j, e) <==> X1Off(j, e)
    ensures CheckX2 in JawFindings(j, e) <==> X2Off(j, e)
    ensures CheckY1 in JawFindings(j, e) <==> Y1Off(j, e)
    ensures CheckY2 in JawFindings(j, e) <==> Y2Off(j, e)
  {
    var x := (if X1Off(j, e) then [CheckX1] else []) + (if X2Off(j, e) then [CheckX2] else []);
    var y := (if Y1Off(j, e) then [CheckY1] else []) + (if Y2Off(j, e) then [CheckY2] else []);
    assert JawFindings(j, e) == x + y;
  }

  /** The jaw checks write nothing but jaw warnings. */
  lemma JawFindingsAre(j: Jaws, e: Extent)
    ensures forall m :: m in JawFindings(j, e) ==> m == CheckX1 || m == CheckX2 || m == CheckY1 || m == CheckY2
  {
    var x := (if X1Off(j, e) then [CheckX1] else []) + (if X2Off(j, e) then [CheckX2] else []);
    var y := (if Y1Off(j, e) then [CheckY1] else []) + (if Y2Off(j, e) then [CheckY2] else []);
    assert JawFindings(j, e) == x + y;
  }

  /** Jaws at X -50/50 and Y -40/40 over an opening from -50 to 50 in rows 23-38 (-40 to 40 mm)
      raise no warning; X1 moved out to -53 raises the X1 warning only, and Y1 at -34, above
      the upper edge of row 23, raises the Y1 warning only. */
  lemma JawFindingsExamples()
    ensures JawFindings(Jaws(-50.0, 50.0, -40.0, 40.0), Extent(-50.0, 50.0, 23, 38)) == []
    ensures JawFindings(Jaws(-53.0, 50.0, -40.0, 40.0), Extent(-50.0, 50.0, 23, 38)) == [CheckX1]
    ensures JawFindings(Jaws(-50.0, 50.0, -34.0, 40.0), Extent(-50.0, 50.0, 23, 38)) == [CheckY1]
  {
  }

  // ---------------------------------------------------------------------------
  // Delivery technique and dose-rate table

  /** Which branch of the field loop a treatment field takes. */
  datatype Delivery = StaticMlc | OpenField | Electron | Vmat | Imrt

  function DeliveryOf(b: Beam, k: PlanKinds): Option<Delivery> {
    if b.hasMlc && b.mlcPlanType == 0 then Some(StaticMlc)
    else if !b.hasMlc && !k.electron then Some(OpenField)
    else if !b.hasMlc && k.electron then Some(Electron)
    else if k.vmat then Some(Vmat)
    else if k.imrt then Some(Imrt)
    else None
  }

  /** The dose rate in MU/min each technique and energy must use; target volume normalisation
      (volumePre) raises the other static energies from 300 to 600. */
  function RequiredDoseRate(d: Delivery, energy: string, volumePre: bool): int {
    match d
    case StaticMlc =>
      if energy == "4X" then 250 else if energy == "6X-FFF" then 1400
      else if energy == "10X-FFF" then 2400 else if volumePre then 600 else 300
    case OpenField => if energy == "4X" then 250 else 300
    case Electron => 300
    case Vmat =>
      if energy == "4X" then 250 else if energy == "6X-FFF" then 1400
      else if energy == "10X-FFF" then 2400 else 600
    case Imrt => if energy == "4X" then 250 else 300
  }

  /** Only the static, open and electron branches check for a zero field weight. */
  predicate ChecksWeight(d: Delivery) { d == StaticMlc || d == OpenField || d == Electron }

  /** The finding a field passing its checks gets. */
  function OkMessage(d: Delivery, id: string): Message {
    match d
    case StaticMlc => FieldOk
    case OpenField => FieldOkNoMlc(id)
    case Electron => FieldOkElectron(id)
    case Vmat => DynamicArc(id)
    case Imrt => DynamicMlc(id)
  }

  /** The warnings of one treatment field taking branch d, in source order. */
  function FieldWarnings(b: Beam, d: Delivery, volumePre: bool): seq<Message>
    requires d == StaticMlc ==> |b.firstControlPoint.leaves| == 60
  {
    (if d == StaticMlc then JawFindings(b.firstControlPoint.jaws, ExtentOf(b.firstControlPoint.leaves)) else []) +
    (if b.doseRate != RequiredDoseRate(d, b.energy, volumePre) then [DoseRateIs(b.doseRate)] else []) +
    (if ChecksWeight(d) && b.weight == 0.0 then [ZeroMu(b.id)] else [])
  }

  function JawPart(b: Beam, d: Delivery): (w: seq<Message>)
    requires d == StaticMlc ==> |b.firstControlPoint.leaves| == 60
  {
    if d == StaticMlc then JawFindings(b.firstControlPoint.jaws, ExtentOf(b.firstControlPoint.leaves)) else []
  }

  function RatePart(b: Beam, d: Delivery, volumePre: bool): seq<Message> {
    if b.doseRate != RequiredDoseRate(d, b.energy, volumePre) then [DoseRateIs(b.doseRate)] else []
  }

  function WeightPart(b: Beam, d: Delivery): seq<Message> {
    if ChecksWeight(d) && b.weight == 0.0 then [ZeroMu(b.id)] else []
  }

  /** Every warning of a field clears fAllOK, so a field passes exactly when it has none. */
  lemma FieldWarningsClear(b: Beam, d: Delivery, volumePre: bool)
    requires d == StaticMlc ==> |b.firstControlPoint.leaves| == 60
    ensures NoClearing(FieldWarnings(b, d, volumePre)) <==> FieldWarnings(b, d, volumePre) == []
  {
    var w := FieldWarnings(b, d, volumePre);
    if w != [] {
      var jw := JawPart(b, d);
      var rw := RatePart(b, d, volumePre);
      var zw := WeightPart(b, d);
      assert w == jw + rw + zw;
      assert ClearsAllOk(w[0]);
    }
  }

  /** A field gets at most one dose-rate warning, it carries the field's own rate, and it is
      there exactly when the rate differs from the table. */
  lemma DoseRateWarningOnce(b: Beam, d: Delivery, volumePre: bool, r: int)
    requires d == StaticMlc ==> |b.firstControlPoint.leaves| == 60
    ensures Occurrences(FieldWarnings(b, d, volumePre), DoseRateIs(r)) <= 1
    ensures DoseRateIs(r) in FieldWarnings(b, d, volumePre) <==>
      r == b.doseRate && b.doseRate != RequiredDoseRate(d, b.energy, volumePre)
  {
    var jw := JawPart(b, d);
    var rw := RatePart(b, d, volumePre);
    var zw := WeightPart(b, d);
    assert FieldWarnings(b, d, volumePre) == jw + rw + zw;
    if d == StaticMlc {
      JawFindingsAre(b.firstControlPoint.jaws, ExtentOf(b.firstControlPoint.leaves));
    }
    assert DoseRateIs(r) !in jw && DoseRateIs(r) !in zw;
    OccurrencesAppend(jw + rw, zw, DoseRateIs(r));
    OccurrencesAppend(jw, rw, DoseRateIs(r));
  }

  /** The zero-weight warning is there exactly when the branch checks weight and it is 0. */
  lemma ZeroWeightWarning(b: Beam, d: Delivery, volumePre: bool)
    requires d == StaticMlc ==> |b.firstControlPoint.leaves| == 60
    ensures ZeroMu(b.id) in FieldWarnings(b, d, volumePre) <==> ChecksWeight(d) && b.weight == 0.0
  {
    assert ZeroMu(b.id) !in JawPart(b, d);
  }

  /** Each jaw warning of a static field is there exactly on its tolerance condition, and
      other branches raise none. */
  lemma JawWarnings(b: Beam, d: Delivery, volumePre: bool)
    requires d == StaticMlc ==> |b.firstControlPoint.leaves| == 60
    ensures d == StaticMlc ==>
      var j := b.firstControlPoint.jaws;
      var e := ExtentOf(b.firstControlPoint.leaves);
      var w := FieldWarnings(b, d, volumePre);
      (CheckX1 in w <==> X1Off(j, e)) && (CheckX2 in w <==> X2Off(j, e)) &&
      (CheckY1 in w <==> Y1Off(j, e)) && (CheckY2 in w <==> Y2Off(j, e))
    ensures d != StaticMlc ==>
      var w := FieldWarnings(b, d, volumePre);
      CheckX1 !in w && CheckX2 !in w && CheckY1 !in w && CheckY2 !in w
  {
    var jw := JawPart(b, d);
    var rw := RatePart(b, d, volumePre);
    var zw := WeightPart(b, d);
    assert FieldWarnings(b, d, volumePre) == jw + rw + zw;
    if d == StaticMlc {
      JawFindingsMembers(b.firstControlPoint.jaws, ExtentOf(b.firstControlPoint.leaves));
    }
  }

  // ---------------------------------------------------------------------------
  // One field and the loop over all fields (PlanCheck.cs:441-616)

  /** fField after a treatment field: every branch but the static one starts from the
      value the previous fields left. */
  function FieldPasses(b: Beam, k: PlanKinds, volumePre: bool, fIn: bool): bool
    requires DeliveryOf(b, k) == Some(StaticMlc) ==> |b.firstControlPoint.leaves| == 60
  {
    var d := DeliveryOf(b, k);
    if d.None? then fIn
    else (d.value == StaticMlc || fIn) && FieldWarnings(b, d.value, volumePre) == []
  }

  /** The findings of one treatment field, given its final fField. */
  function FieldSegment(b: Beam, k: PlanKinds, volumePre: bool, fOut: bool): seq<Message>
    requires DeliveryOf(b, k) == Some(StaticMlc) ==> |b.firstControlPoint.leaves| == 60
  {
    var d := DeliveryOf(b, k);
    if d.None? then [FieldHeader(b.id)]
    else [FieldHeader(b.id)] + FieldWarnings(b, d.value, volumePre) + (if fOut then [OkMessage(d.value, b.id)] else [])
  }

  /** A static field with MLC has its 60 leaf pairs. */
  predicate LeavesPresent(b: Beam) {
    b.hasMlc && b.mlcPlanType == 0 ==> |b.firstControlPoint.leaves| == 60
  }

  /** The jaw/MLC tolerance checks of a static field, after the opening scan. */
  method JawCheck(jaws: Jaws, leaves: seq<LeafPair>) returns (w: seq<Message>)
    requires |leaves| == 60
    ensures w == JawFindings(jaws, ExtentOf(leaves))
  {
    var e := ScanLeafExtent(leaves);
    w := XJawCheck(jaws, e);
    var wy := YJawCheck(jaws, e);
    w := w + wy;
  }

  /** X1 and X2 against the opening's outermost leaf positions. */
  method XJawCheck(jaws: Jaws, e: Extent) returns (w: seq<Message>)
    ensures w == (if X1Off(jaws, e) then [CheckX1] else []) + (if X2Off(jaws, e) then [CheckX2] else [])
  {
    w := [];
    if Abs(jaws.x1 - e.minX) > 2.0 { w := w + [CheckX1]; }
    if Abs(jaws.x2 - e.maxX) > 2.0 { w := w + [CheckX2]; }
  }

  /** Y1 and Y2 against the edges of the opening's first and last leaf rows. */
  method YJawCheck(jaws: Jaws, e: Extent) returns (w: seq<Message>)
    ensures w == (if Y1Off(jaws, e) then [CheckY1] else []) + (if Y2Off(jaws, e) then [CheckY2] else [])
  {
    var minYEdge := LeafEdge(e.minY);
    var maxYEdge := LeafEdge(e.maxY);
    w := [];
    if jaws.y1 - minYEdge.lo < -2.0 || jaws.y1 > minYEdge.hi { w := w + [CheckY1]; }
    if maxYEdge.hi - jaws.y2 < -2.0 || jaws.y2 < maxYEdge.lo { w := w + [CheckY2]; }
  }

  /** The dose-rate test of a static field, with its conditions as the source writes them. */
  method StaticDoseRateWrong(b: Beam, volumePre: bool) returns (wrong: bool)
    ensures wrong <==> b.doseRate != RequiredDoseRate(StaticMlc, b.energy, volumePre)
  {
    var doseRate := b.doseRate;
    if b.energy == "4X" {
      wrong := doseRate != 250;
    } else if b.energy == "6X-FFF" {
      wrong := (doseRate != 1400 && !volumePre) || (doseRate != 1400 && volumePre);
    } else if b.energy == "10X-FFF" {
      wrong := (doseRate != 2400 && !volumePre) || (doseRate != 2400 && volumePre);
    } else {
      wrong := (doseRate != 300 && !volumePre) || (doseRate != 600 && volumePre);
    }
  }

  method StaticFieldWarnings(b: Beam, volumePre: bool) returns (w: seq<Message>)
    requires |b.firstControlPoint.leaves| == 60
    ensures w == FieldWarnings(b, StaticMlc, volumePre)
  {
    w := JawCheck(b.firstControlPoint.jaws, b.firstControlPoint.leaves);
    var wrong := StaticDoseRateWrong(b, volumePre);
    if wrong { w := w + [DoseRateIs(b.doseRate)]; }
    if b.weight == 0.0 { w := w + [ZeroMu(b.id)]; }
  }

  method OpenFieldWarnings(b: Beam, volumePre: bool) returns (w: seq<Message>)
    ensures w == FieldWarnings(b, OpenField, volumePre)
  {
    w := [];
    var doseRate := b.doseRate;
    if b.energy == "4X" {
      if doseRate != 250 { w := w + [DoseRateIs(doseRate)]; }
    } else {
      if doseRate != 300 { w := w + [DoseRateIs(doseRate)]; }
    }
    if b.weight == 0.0 { w := w + [ZeroMu(b.id)]; }
  }

  method ElectronFieldWarnings(b: Beam, volumePre: bool) returns (w: seq<Message>)
    ensures w == FieldWarnings(b, Electron, volumePre)
  {
    w := [];
    var doseRate := b.doseRate;
    if doseRate != 300 { w := w + [DoseRateIs(doseRate)]; }
    if b.weight == 0.0 { w := w + [ZeroMu(b.id)]; }
  }

  method VmatFieldWarnings(b: Beam, volumePre: bool) returns (w: seq<Message>)
    ensures w == FieldWarnings(b, Vmat, volumePre)
  {
    w := [];
    var doseRate := b.doseRate;
    if b.energy == "4X" {
      if doseRate != 250 { w := w + [DoseRateIs(doseRate)]; }
    } else if b.energy == "6X-FFF" {
      if doseRate != 1400 { w := w + [DoseRateIs(doseRate)]; }
    } else if b.energy == "10X-FFF" {
      if doseRate != 2400 { w := w + [DoseRateIs(doseRate)]; }
    } else {
      if doseRate != 600 { w := w + [DoseRateIs(doseRate)]; }
    }
  }

  method ImrtFieldWarnings(b: Beam, volumePre: bool) returns (w: seq<Message>)
    ensures w == FieldWarnings(b, Imrt, volumePre)
  {
    w := [];
    var doseRate := b.doseRate;
    if b.energy == "4X" {
      if doseRate != 250 { w := w + [DoseRateIs(doseRate)]; }
    } else {
      if doseRate != 300 { w := w + [DoseRateIs(doseRate)]; }
    }
  }

  /** One treatment field: its header, the warnings of its branch, and "ok" when fField
      still holds, else fAllOK is cleared. */
  method CheckField(b: Beam, k: PlanKinds, volumePre: bool, fField: bool, results: seq<Message>, allOk: bool)
    returns (fField': bool, results': seq<Message>, allOk': bool)
    requires LeavesPresent(b)
    ensures fField' == FieldPasses(b, k, volumePre, fField)
    ensures results' == results + FieldSegment(b, k, volumePre, fField')
    ensures allOk' == (allOk && (DeliveryOf(b, k).None? || fField'))
  {
    fField' := fField;
    allOk' := allOk;
    results' := results + [FieldHeader(b.id)];
    var d := DeliveryOf(b, k);
    if d.None? {
      return;
    }
    var w: seq<Message>;
    match d.value {
      case StaticMlc =>
        fField' := true;
        w := StaticFieldWarnings(b, volumePre);
      case OpenField =>
        w := OpenFieldWarnings(b, volumePre);
      case Electron =>
        w := ElectronFieldWarnings(b, volumePre);
      case Vmat =>
        w := VmatFieldWarnings(b, volumePre);
      case Imrt =>
        w := ImrtFieldWarnings(b, volumePre);
    }
    results' := results' + w;
    if w != [] { fField' := false; }
    if fField' {
      results' := results' + [OkMessage(d.value, b.id)];
      AppendAssoc(results, [FieldHeader(b.id)], w);
      AppendAssoc(results, [FieldHeader(b.id)] + w, [OkMessage(d.value, b.id)]);
    } else {
      allOk' := false;
      AppendAssoc(results, [FieldHeader(b.id)], w);
    }
  }

  /** A field's findings clear fAllOK exactly when the field has a warning. */
  lemma FieldSegmentClearing(b: Beam, k: PlanKinds, volumePre: bool, fOut: bool)
    requires LeavesPresent(b)
    ensures var d := DeliveryOf(b, k);
      NoClearing(FieldSegment(b, k, volumePre, fOut)) <==> d.None? || FieldWarnings(b, d.value, volumePre) == []
  {
    var d := DeliveryOf(b, k);
    if d.Some? {
      var w := FieldWarnings(b, d.value, volumePre);
      var tail := if fOut then [OkMessage(d.value, b.id)] else [];
      FieldWarningsClear(b, d.value, volumePre);
      NoClearingAppend([FieldHeader(b.id)], w);
      NoClearingAppend([FieldHeader(b.id)] + w, tail);
    }
  }

  /** Every treatment field has the leaf pairs the field loop reads; setup fields are
      never scanned. */
  predicate AllLeavesPresent(bs: seq<Beam>) {
    forall i :: 0 <= i < |bs| && IsTreatment(bs[i]) ==> LeavesPresent(bs[i])
  }

  /** fField after the field loop has run over bs, starting from true. */
  function FieldFlag(bs: seq<Beam>, k: PlanKinds, volumePre: bool): bool
    requires AllLeavesPresent(bs)
  {
    if |bs| == 0 then true
    else
      var f := FieldFlag(bs[..|bs| - 1], k, volumePre);
      var b := bs[|bs| - 1];
      if IsTreatment(b) then FieldPasses(b, k, volumePre, f) else f
  }

  /** The findings of the field loop over bs: each treatment field's segment in order. */
  function FieldReport(bs: seq<Beam>, k: PlanKinds, volumePre: bool): seq<Message>
    requires AllLeavesPresent(bs)
  {
    if |bs| == 0 then []
    else
      var b := bs[|bs| - 1];
      FieldReport(bs[..|bs| - 1], k, volumePre) +
      (if IsTreatment(b) then FieldSegment(b, k, volumePre, FieldFlag(bs, k, volumePre)) else [])
  }

  /** One more field extends the loop's flag and findings by that field alone. */
  lemma FieldLoopStep(bs: seq<Beam>, i: nat, k: PlanKinds, volumePre: bool)
    requires AllLeavesPresent(bs) && i < |bs|
    ensures AllLeavesPresent(bs[..i]) && AllLeavesPresent(bs[..i + 1])
    ensures FieldFlag(bs[..i + 1], k, volumePre) ==
      if IsTreatment(bs[i]) then FieldPasses(bs[i], k, volumePre, FieldFlag(bs[..i], k, volumePre))
      else FieldFlag(bs[..i], k, volumePre)
    ensures FieldReport(bs[..i + 1], k, volumePre) == FieldReport(bs[..i], k, volumePre) +
      if IsTreatment(bs[i]) then FieldSegment(bs[i], k, volumePre, FieldFlag(bs[..i + 1], k, volumePre)) else []
  {
    assert bs[..i + 1][..i] == bs[..i];
  }

  /** The loop invariant of the source: once fField is false, some finding so far has
      cleared fAllOK. */
  lemma {:induction false} FieldFlagFalseClears(bs: seq<Beam>, k: PlanKinds, volumePre: bool)
    requires AllLeavesPresent(bs)
    ensures !FieldFlag(bs, k, volumePre) ==> !NoClearing(FieldReport(bs, k, volumePre))
  {
    if |bs| > 0 {
      var n := |bs| - 1;
      assert bs[..n + 1] == bs;
      FieldLoopStep(bs, n, k, volumePre);
      FieldFlagFalseClears(bs[..n], k, volumePre);
      var seg := if IsTreatment(bs[n]) then FieldSegment(bs[n], k, volumePre, FieldFlag(bs, k, volumePre)) else [];
      NoClearingAppend(FieldReport(bs[..n], k, volumePre), seg);
      if IsTreatment(bs[n]) {
        FieldSegmentClearing(bs[n], k, volumePre, FieldFlag(bs, k, volumePre));
      }
    }
  }

  predicate NoHeader(ms: seq<Message>) {
    forall i :: 0 <= i < |ms| ==> !ms[i].FieldHeader?
  }

  lemma {:induction false} NoHeaderCount(ms: seq<Message>)
    requires NoHeader(ms)
    ensures HeaderCount(ms) == 0
  {
    if |ms| > 0 {
      NoHeaderCount(ms[..|ms| - 1]);
    }
  }

  lemma PartsShape(b: Beam, d: Delivery, volumePre: bool)
    requires d == StaticMlc ==> |b.firstControlPoint.leaves| == 60
    ensures NoHeader(JawPart(b, d)) && NoHeader(RatePart(b, d, volumePre)) && NoHeader(WeightPart(b, d))
  {
  }

  lemma JawFindingsSection(j: Jaws, e: Extent)
    ensures AllIn(JawFindings(j, e), 9)
  {
  }

  lemma PartsSection(b: Beam, d: Delivery, volumePre: bool)
    requires d == StaticMlc ==> |b.firstControlPoint.leaves| == 60
    ensures AllIn(JawPart(b, d), 9) && AllIn(RatePart(b, d, volumePre), 9) && AllIn(WeightPart(b, d), 9)
  {
    if d == StaticMlc {
      JawFindingsSection(b.firstControlPoint.jaws, ExtentOf(b.firstControlPoint.leaves));
    }
  }

  lemma NoHeaderAppend(a: seq<Message>, b: seq<Message>)
    requires NoHeader(a) && NoHeader(b)
    ensures NoHeader(a + b)
  {
  }

  /** A field's warnings belong to the field block. */
  lemma FieldWarningsSection(b: Beam, d: Delivery, volumePre: bool)
    requires d == StaticMlc ==> |b.firstControlPoint.leaves| == 60
    ensures AllIn(FieldWarnings(b, d, volumePre), 9)
  {
    var jw := JawPart(b, d);
    var rw := RatePart(b, d, volumePre);
    var zw := WeightPart(b, d);
    assert FieldWarnings(b, d, volumePre) == jw + rw + zw;
    PartsSection(b, d, volumePre);
    AllInAppend(jw, rw, 9);
    AllInAppend(jw + rw, zw, 9);
  }

  /** No warning of a field is a field header. */
  lemma FieldWarningsNoHeader(b: Beam, d: Delivery, volumePre: bool)
    requires d == StaticMlc ==> |b.firstControlPoint.leaves| == 60
    ensures NoHeader(FieldWarnings(b, d, volumePre))
  {
    var jw := JawPart(b, d);
    var rw := RatePart(b, d, volumePre);
    var zw := WeightPart(b, d);
    assert FieldWarnings(b, d, volumePre) == jw + rw + zw;
    PartsShape(b, d, volumePre);
    NoHeaderAppend(jw, rw);
    NoHeaderAppend(jw + rw, zw);
  }

  lemma OkMessageShape(d: Delivery, id: string)
    ensures SectionOf(OkMessage(d, id)) == 9 && !OkMessage(d, id).FieldHeader?
  {
  }

  /** A field's findings are its header followed by header-free findings of the field block. */
  lemma FieldSegmentSplit(b: Beam, k: PlanKinds, volumePre: bool, fOut: bool) returns (rest: seq<Message>)
    requires LeavesPresent(b)
    ensures FieldSegment(b, k, volumePre, fOut) == [FieldHeader(b.id)] + rest
    ensures AllIn(rest, 9) && NoHeader(rest)
  {
    var d := DeliveryOf(b, k);
    rest := [];
    if d.Some? {
      var w := FieldWarnings(b, d.value, volumePre);
      FieldWarningsSection(b, d.value, volumePre);
      FieldWarningsNoHeader(b, d.value, volumePre);
      OkMessageShape(d.value, b.id);
      var tail := if fOut then [OkMessage(d.value, b.id)] else [];
      rest := w + tail;
      AllInAppend(w, tail, 9);
      NoHeaderAppend(w, tail);
    }
  }

  /** A field's findings belong to the field block, and it has exactly one header. */
  lemma FieldSegmentShape(b: Beam, k: PlanKinds, volumePre: bool, fOut: bool)
    requires LeavesPresent(b)
    ensures AllIn(FieldSegment(b, k, volumePre, fOut), 9)
    ensures HeaderCount(FieldSegment(b, k, volumePre, fOut)) == 1
  {
    var rest := FieldSegmentSplit(b, k, volumePre, fOut);
    AllInAppend([FieldHeader(b.id)], rest, 9);
    NoHeaderCount(rest);
    HeaderCountAppend([FieldHeader(b.id)], rest);
    assert [FieldHeader(b.id)][..0] == [];
  }

  /** The number of field headers among ms. */
  function HeaderCount(ms: seq<Message>): nat {
    if |ms| == 0 then 0 else HeaderCount(ms[..|ms| - 1]) + (if ms[|ms| - 1].FieldHeader? then 1 else 0)
  }

  lemma HeaderCountAppend(a: seq<Message>, b: seq<Message>)
    ensures HeaderCount(a + b) == HeaderCount(a) + HeaderCount(b)
    decreases |b|
  {
    if |b| == 0 {
      assert a + b == a;
    } else {
      assert (a + b)[..|a + b| - 1] == a + b[..|b| - 1];
      HeaderCountAppend(a, b[..|b| - 1]);
    }
  }

  /** The field loop writes only field-block findings, and exactly one header per
      treatment field. */
  lemma {:induction false} FieldReportShape(bs: seq<Beam>, k: PlanKinds, volumePre: bool)
    requires AllLeavesPresent(bs)
    ensures AllIn(FieldReport(bs, k, volumePre), 9)
    ensures HeaderCount(FieldReport(bs, k, volumePre)) == TreatmentCount(bs)
  {
    if |bs| > 0 {
      var n := |bs| - 1;
      assert bs[..n + 1] == bs;
      FieldLoopStep(bs, n, k, volumePre);
      FieldReportShape(bs[..n], k, volumePre);
      var seg := if IsTreatment(bs[n]) then FieldSegment(bs[n], k, volumePre, FieldFlag(bs, k, volumePre)) else [];
      if IsTreatment(bs[n]) {
        FieldSegmentShape(bs[n], k, volumePre, FieldFlag(bs, k, volumePre));
      }
      AllInAppend(FieldReport(bs[..n], k, volumePre), seg, 9);
      HeaderCountAppend(FieldReport(bs[..n], k, volumePre), seg);
    }
  }

  /** fAllOK after one more treatment field tracks the findings so far. */
  lemma FieldLoopAllOk(bs: seq<Beam>, i: nat, k: PlanKinds, volumePre: bool, allOk: bool, allOkIn: bool, fOut: bool)
    requires AllLeavesPresent(bs) && i < |bs| && IsTreatment(bs[i])
    requires AllLeavesPresent(bs[..i])
    requires allOkIn == (allOk && NoClearing(FieldReport(bs[..i], k, volumePre)))
    requires fOut == FieldPasses(bs[i], k, volumePre, FieldFlag(bs[..i], k, volumePre))
    ensures AllLeavesPresent(bs[..i + 1])
    ensures (allOkIn && (DeliveryOf(bs[i], k).None? || fOut)) ==
      (allOk && NoClearing(FieldReport(bs[..i + 1], k, volumePre)))
  {
    FieldLoopStep(bs, i, k, volumePre);
    FieldFlagFalseClears(bs[..i], k, volumePre);
    FieldSegmentClearing(bs[i], k, volumePre, fOut);
    NoClearingAppend(FieldReport(bs[..i], k, volumePre), FieldSegment(bs[i], k, volumePre, fOut));
  }

  /** The field loop (PlanCheck.cs:441-616), fField starting true. */
  method CheckFields(beams: seq<Beam>, k: PlanKinds, volumePre: bool, results: seq<Message>, allOk: bool)
    returns (results': seq<Message>, allOk': bool)
    requires AllLeavesPresent(beams)
    ensures results' == results + FieldReport(beams, k, volumePre)
    ensures allOk' == (allOk && NoClearing(FieldReport(beams, k, volumePre)))
  {
    var fField := true;
    results' := results;
    allOk' := allOk;
    var i := 0;
    assert beams[..0] == [];
    while i < |beams|
      invariant 0 <= i <= |beams|
      invariant AllLeavesPresent(beams[..i])
      invariant fField == FieldFlag(beams[..i], k, volumePre)
      invariant results' == results + FieldReport(beams[..i], k, volumePre)
      invariant allOk' == (allOk && NoClearing(FieldReport(beams[..i], k, volumePre)))
    {
      FieldLoopStep(beams, i, k, volumePre);
      if !beams[i].isSetup {
        ghost var fIn, resultsIn, allOkIn := fField, results', allOk';
        fField, results', allOk' := CheckField(beams[i], k, volumePre, fField, results', allOk');
        FieldLoopTreatment(beams, i, k, volumePre, results, allOk, fIn, resultsIn, allOkIn,
                           fField, results', allOk');
      } else {
        assert FieldReport(beams[..i], k, volumePre) + [] == FieldReport(beams[..i], k, volumePre);
      }
      i := i + 1;
    }
    assert beams[..|beams|] == beams;
  }

  /** The field loop's state after one more treatment field. */
  lemma FieldLoopTreatment(bs: seq<Beam>, i: nat, k: PlanKinds, volumePre: bool,
                           results: seq<Message>, allOk: bool,
                           fIn: bool, resultsIn: seq<Message>, allOkIn: bool,
                           fOut: bool, resultsOut: seq<Message>, allOkOut: bool)
    requires AllLeavesPresent(bs) && i < |bs| && IsTreatment(bs[i])
    requires AllLeavesPresent(bs[..i])
    requires fIn == FieldFlag(bs[..i], k, volumePre)
    requires resultsIn == results + FieldReport(bs[..i], k, volumePre)
    requires allOkIn == (allOk && NoClearing(FieldReport(bs[..i], k, volumePre)))
    requires fOut == FieldPasses(bs[i], k, volumePre, fIn)
    requires resultsOut == resultsIn + FieldSegment(bs[i], k, volumePre, fOut)
    requires allOkOut == (allOkIn && (DeliveryOf(bs[i], k).None? || fOut))
    ensures AllLeavesPresent(bs[..i + 1])
    ensures fOut == FieldFlag(bs[..i + 1], k, volumePre)
    ensures resultsOut == results + FieldReport(bs[..i + 1], k, volumePre)
    ensures allOkOut == (allOk && NoClearing(FieldReport(bs[..i + 1], k, volumePre)))
  {
    FieldLoopStep(bs, i, k, volumePre);
    FieldLoopAllOk(bs, i, k, volumePre, allOk, allOkIn, fOut);
    AppendAssoc(results, FieldReport(bs[..i], k, volumePre), FieldSegment(bs[i], k, volumePre, fOut));
  }

  lemma AppendAssoc<T>(a: seq<T>, b: seq<T>, c: seq<T>)
    ensures (a + b) + c == a + (b + c)
  {
  }
}
