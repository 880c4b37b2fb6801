/** The plan-sum run: CheckPlan once per plan of the selected plan sum, in order. */
module PlanSumRun {
  import opened Wrappers
  import opened PlanData
  import opened RuleEngine
  import opened RunProperties

  /** What the plan-sum button does: warn that nothing is selected, warn that the sum has
      no plans, or check its plans. */
  datatype SumRun = NoPlanSum | NoPlans | Ran(outcomes: seq<Outcome>)

  predicate AllWellFormed(plans: seq<Plan>) {
    forall i :: 0 <= i < |plans| ==> WellFormed(plans[i])
  }

  /** f applied to each element, in order. */
  function Each<T, U>(f: T --> U, xs: seq<T>): seq<U>
    requires forall k :: 0 <= k < |xs| ==> f.requires(xs[k])
    decreases |xs|
  {
    if |xs| == 0 then [] else [f(xs[0])] + Each(f, xs[1..])
  }

  lemma {:induction false} EachAt<T, U>(f: T --> U, xs: seq<T>)
    requires forall k :: 0 <= k < |xs| ==> f.requires(xs[k])
    ensures |Each(f, xs)| == |xs|
    ensures forall k :: 0 <= k < |xs| ==> Each(f, xs)[k] == f(xs[k])
    decreases |xs|
  {
    if |xs| > 0 {
      EachAt(f, xs[1..]);
      forall k | 1 <= k < |xs| ensures Each(f, xs)[k] == f(xs[k]) {
        assert xs[1..][k - 1] == xs[k];
      }
    }
  }

  lemma {:induction false} EachAppend<T, U>(f: T --> U, xs: seq<T>, i: nat)
    requires forall k :: 0 <= k < |xs| ==> f.requires(xs[k])
    requires i <= |xs|
    ensures forall k :: 0 <= k < i ==> f.requires(xs[..i][k])
    ensures forall k :: 0 <= k < |xs| - i ==> f.requires(xs[i..][k])
    ensures Each(f, xs) == Each(f, xs[..i]) + Each(f, xs[i..])
    decreases i
  {
    assert forall k :: 0 <= k < i ==> xs[..i][k] == xs[k];
    assert forall k :: 0 <= k < |xs| - i ==> xs[i..][k] == xs[i + k];
    if i == 0 {
      assert xs[i..] == xs;
      assert xs[..i] == [];
    } else {
      var rest := xs[1..];
      EachAppend(f, rest, i - 1);
      assert rest[..i - 1] == xs[..i][1..];
      assert rest[i - 1..] == xs[i..];
    }
  }

  lemma EachSnoc<T, U>(f: T --> U, xs: seq<T>, i: nat)
    requires forall k :: 0 <= k < |xs| ==> f.requires(xs[k])
    requires i < |xs|
    ensures forall k :: 0 <= k < i ==> f.requires(xs[..i][k])
    ensures Each(f, xs[..i + 1]) == Each(f, xs[..i]) + [f(xs[i])]
  {
    var p := xs[..i + 1];
    assert forall k :: 0 <= k < i + 1 ==> p[k] == xs[k];
    EachAppend(f, p, i);
    assert p[..i] == xs[..i];
    assert p[i..] == [xs[i]];
  }

  /** CheckPlan(…, true) as a function of the plan. */
  function CheckInSum(studies: seq<Series>): Plan --> Outcome {
    p requires WellFormed(p) => Expected(studies, p, true)
  }

  /** What CheckPlan(…, true) gives for each plan of the sum. */
  function EachOutcome(studies: seq<Series>, plans: seq<Plan>): seq<Outcome>
    requires AllWellFormed(plans)
  {
    Each(CheckInSum(studies), plans)
  }

  /** Outcome k is plan k's. */
  lemma EachOutcomeAt(studies: seq<Series>, plans: seq<Plan>)
    requires AllWellFormed(plans)
    ensures |EachOutcome(studies, plans)| == |plans|
    ensures forall k :: 0 <= k < |plans| ==> EachOutcome(studies, plans)[k] == Expected(studies, plans[k], true)
  {
    EachAt(CheckInSum(studies), plans);
  }

  /** A run of checks one after the other: an exception ends the run, so nothing after the
      first fatal outcome is produced. */
  function StopAtFatal(os: seq<Outcome>): seq<Outcome>
  {
    if |os| == 0 then []
    else if os[0].Fatal? then [os[0]]
    else [os[0]] + StopAtFatal(os[1..])
  }

  /** The outcomes of checking the plans one after the other as members of a plan sum. */
  function SumOutcomes(studies: seq<Series>, plans: seq<Plan>): seq<Outcome>
    requires AllWellFormed(plans)
  {
    StopAtFatal(EachOutcome(studies, plans))
  }

  function RunPlanSum(studies: seq<Series>, selected: Option<seq<Plan>>): SumRun
    requires selected.Some? ==> AllWellFormed(selected.value)
  {
    match selected
    case None => NoPlanSum
    case Some(plans) => if |plans| < 1 then NoPlans else Ran(SumOutcomes(studies, plans))
  }

  /** A run is a prefix of the outcomes; every outcome in it but the last completed, and it
      stops early only at a fatal outcome. */
  lemma {:induction false} StopAtFatalShape(os: seq<Outcome>)
    ensures var r := StopAtFatal(os);
      |r| <= |os| && r == os[..|r|] &&
      (forall k :: 0 <= k < |r| - 1 ==> r[k].Report?) &&
      (|r| < |os| ==> |r| > 0 && r[|r| - 1].Fatal?) &&
      (|os| > 0 ==> |r| > 0)
  {
    if |os| > 0 && os[0].Report? {
      StopAtFatalShape(os[1..]);
      var r := StopAtFatal(os);
      var rest := StopAtFatal(os[1..]);
      assert r == [os[0]] + rest;
      assert r == os[..|r|] by {
        assert os == [os[0]] + os[1..];
        assert os[..|r|] == [os[0]] + os[1..][..|rest|];
      }
      forall k | 0 <= k < |r| - 1 ensures r[k].Report? {
        if k > 0 {
          assert r[k] == rest[k - 1];
        }
      }
    }
  }

  /** The run stops exactly at the first fatal outcome. */
  lemma {:induction false} StopAtFirstFatal(os: seq<Outcome>, j: nat)
    requires j < |os| && os[j].Fatal?
    requires forall k :: 0 <= k < j ==> os[k].Report?
    ensures StopAtFatal(os) == os[..j + 1]
    decreases j
  {
    if j > 0 {
      StopAtFirstFatal(os[1..], j - 1);
      assert os[..j + 1] == [os[0]] + os[1..][..j];
    }
  }

  /** A run whose last outcome is its first fatal one ignores whatever would follow. */
  lemma {:induction false} StopAtFatalPrefix(p: seq<Outcome>, rest: seq<Outcome>)
    requires |p| > 0 && p[|p| - 1].Fatal?
    requires forall k :: 0 <= k < |p| - 1 ==> p[k].Report?
    ensures StopAtFatal(p + rest) == p
  {
    var all := p + rest;
    StopAtFirstFatal(all, |p| - 1);
    assert all[..|p|] == p;
  }

  /** With no fatal outcome the run covers everything. */
  lemma {:induction false} StopAtFatalNone(os: seq<Outcome>)
    requires forall k :: 0 <= k < |os| ==> os[k].Report?
    ensures StopAtFatal(os) == os
  {
    if |os| > 0 {
      StopAtFatalNone(os[1..]);
      assert os == [os[0]] + os[1..];
    }
  }

  /** The outcomes line up with the plans, every plan before the last one checked completed,
      the run stops early only at a fatal plan, and a sum with plans checks at least one. */
  lemma SumOutcomesShape(studies: seq<Series>, plans: seq<Plan>)
    requires AllWellFormed(plans)
    ensures var os := SumOutcomes(studies, plans);
      |os| <= |plans| &&
      (forall k :: 0 <= k < |os| ==> os[k] == Expected(studies, plans[k], true)) &&
      (forall k :: 0 <= k < |os| - 1 ==> os[k].Report?) &&
      (|os| < |plans| ==> |os| > 0 && os[|os| - 1].Fatal?) &&
      (|plans| > 0 ==> |os| > 0)
  {
    RunOfEach(CheckInSum(studies), plans);
    var os := SumOutcomes(studies, plans);
    forall k | 0 <= k < |os| ensures os[k] == Expected(studies, plans[k], true) {
      CheckInSumIs(studies, plans[k]);
    }
  }

  lemma CheckInSumIs(studies: seq<Series>, p: Plan)
    requires WellFormed(p)
    ensures CheckInSum(studies)(p) == Expected(studies, p, true)
  {
  }

  /** A run of f over xs: its outcomes are f's on a prefix of xs. */
  lemma RunOfEach<T>(f: T --> Outcome, xs: seq<T>)
    requires forall k :: 0 <= k < |xs| ==> f.requires(xs[k])
    ensures var os := StopAtFatal(Each(f, xs));
      |os| <= |xs| &&
      (forall k :: 0 <= k < |os| ==> os[k] == f(xs[k])) &&
      (forall k :: 0 <= k < |os| - 1 ==> os[k].Report?) &&
      (|os| < |xs| ==> |os| > 0 && os[|os| - 1].Fatal?) &&
      (|xs| > 0 ==> |os| > 0)
  {
    var all := Each(f, xs);
    EachAt(f, xs);
    StopAtFatalShape(all);
    var os := StopAtFatal(all);
    forall k | 0 <= k < |os| ensures os[k] == f(xs[k]) {
      assert os[k] == all[..|os|][k];
    }
  }

  /** Every plan is checked until the first one that raises an exception, which is reported
      and ends the run. */
  lemma SumChecksUpToFirstFatal(studies: seq<Series>, plans: seq<Plan>, j: nat)
    requires AllWellFormed(plans)
    requires j < |plans| && Expected(studies, plans[j], true).Fatal?
    requires forall k :: 0 <= k < j ==> Expected(studies, plans[k], true).Report?
    ensures |SumOutcomes(studies, plans)| == j + 1
    ensures SumOutcomes(studies, plans)[j] == Expected(studies, plans[j], true)
  {
    EachOutcomeAt(studies, plans);
    StopAtFirstFatal(EachOutcome(studies, plans), j);
  }

  /** With no fatal plan every plan is checked and reported. */
  lemma SumChecksAll(studies: seq<Series>, plans: seq<Plan>)
    requires AllWellFormed(plans)
    requires forall k :: 0 <= k < |plans| ==> Expected(studies, plans[k], true).Report?
    ensures SumOutcomes(studies, plans) == EachOutcome(studies, plans)
  {
    EachOutcomeAt(studies, plans);
    StopAtFatalNone(EachOutcome(studies, plans));
  }

  /** Every report of a plan-sum run names the plan it was written for. */
  lemma SumReportsNamePlans(studies: seq<Series>, plans: seq<Plan>)
    requires AllWellFormed(plans)
    ensures var os := SumOutcomes(studies, plans);
      |os| <= |plans| &&
      forall k :: 0 <= k < |os| && os[k].Report? ==> PlanIdIs(plans[k].id) in os[k].results
  {
    SumOutcomesShape(studies, plans);
    var os := SumOutcomes(studies, plans);
    forall k | 0 <= k < |os| && os[k].Report? ensures PlanIdIs(plans[k].id) in os[k].results {
      ReportIds(studies, plans[k], true);
    }
  }

  /** No outcome in the list is fatal. */
  predicate AllCompleted(os: seq<Outcome>)
    decreases |os|
  {
    |os| == 0 || (os[|os| - 1].Report? && AllCompleted(os[..|os| - 1]))
  }

  lemma {:induction false} AllCompletedMeans(os: seq<Outcome>)
    ensures AllCompleted(os) <==> forall k :: 0 <= k < |os| ==> os[k].Report?
    decreases |os|
  {
    if |os| > 0 {
      var front := os[..|os| - 1];
      AllCompletedMeans(front);
      assert forall k :: 0 <= k < |front| ==> front[k] == os[k];
    }
  }

  lemma AllCompletedSnoc(os: seq<Outcome>, o: Outcome)
    requires AllCompleted(os) && o.Report?
    ensures AllCompleted(os + [o])
  {
    assert (os + [o])[..|os|] == os;
  }

  /** The loop of the button handler: `checked` holds the outcomes of the first i plans. */
  predicate CheckedSoFar(studies: seq<Series>, plans: seq<Plan>, i: nat, checked: seq<Outcome>) {
    AllWellFormed(plans) && i <= |plans| && checked == Each(CheckInSum(studies), plans[..i])
  }

  /** The loop of the button handler after checking plan i. */
  lemma SumStep(studies: seq<Series>, plans: seq<Plan>, i: nat, outcomes: seq<Outcome>, o: Outcome)
    requires AllWellFormed(plans) && i < |plans| && CheckedSoFar(studies, plans, i, outcomes)
    requires o == Expected(studies, plans[i], true)
    ensures CheckedSoFar(studies, plans, i + 1, outcomes + [o])
  {
    EachSnoc(CheckInSum(studies), plans, i);
  }

  /** The loop of the button handler stopping at plan i, the first that throws. */
  lemma SumStop(studies: seq<Series>, plans: seq<Plan>, i: nat, outcomes: seq<Outcome>, o: Outcome)
    requires CheckedSoFar(studies, plans, i + 1, outcomes + [o])
    requires AllCompleted(outcomes) && o.Fatal?
    ensures SumOutcomes(studies, plans) == outcomes + [o]
  {
    AllCompletedMeans(outcomes);
    EachAppend(CheckInSum(studies), plans, i + 1);
    StopAtFatalPrefix(outcomes + [o], Each(CheckInSum(studies), plans[i + 1..]));
  }

  /** The loop of the button handler running to the end. */
  lemma SumEnd(studies: seq<Series>, plans: seq<Plan>, outcomes: seq<Outcome>)
    requires CheckedSoFar(studies, plans, |plans|, outcomes)
    requires AllCompleted(outcomes)
    ensures SumOutcomes(studies, plans) == outcomes
  {
    assert plans[..|plans|] == plans;
    AllCompletedMeans(outcomes);
    StopAtFatalNone(outcomes);
  }

  /** CheckPlan(…, true) on each plan in turn while none throws. */
  method CheckEachPlan(studies: seq<Series>, plans: seq<Plan>) returns (outcomes: seq<Outcome>)
    requires AllWellFormed(plans)
    ensures outcomes == SumOutcomes(studies, plans)
  {
    outcomes := [];
    var i := 0;
    assert plans[..0] == [];
    while i < |plans|
      invariant 0 <= i <= |plans|
      invariant CheckedSoFar(studies, plans, i, outcomes)
      invariant AllCompleted(outcomes)
    {
      var o := CheckPlan(studies, plans[i], true);
      SumStep(studies, plans, i, outcomes, o);
      if o.Fatal? {
        SumStop(studies, plans, i, outcomes, o);
        return outcomes + [o];
      }
      AllCompletedSnoc(outcomes, o);
      outcomes := outcomes + [o];
      i := i + 1;
    }
    SumEnd(studies, plans, outcomes);
  }

  /** The button handler: "No PlanSum is selected", "has no plans", or CheckPlan(…, true)
      for each plan until one throws. */
  method CheckPlanSum(studies: seq<Series>, selected: Option<seq<Plan>>) returns (run: SumRun)
    requires selected.Some? ==> AllWellFormed(selected.value)
    ensures run == RunPlanSum(studies, selected)
  {
    if selected.None? {
      return NoPlanSum;
    }
    var plans := selected.value;
    if |plans| < 1 {
      return NoPlans;
    }
    var outcomes := CheckEachPlan(studies, plans);
    return Ran(outcomes);
  }
}
