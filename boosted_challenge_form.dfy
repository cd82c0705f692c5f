/** The three-step wizard of `components/forms/BoostedChallengeForm.tsx`:
    campaign details, campus selection with a price and a student count per
    campus, and a review step that emits the campaign with its total cost and
    estimated reach. */
module BoostedChallengeForm {
  import opened Common

  datatype Campus = Campus(
    id: string,
    name: string,
    location: string,
    studentCount: int,
    ldsScore: int,
    price: int)

  /** The campuses on offer. */
  const Campuses: seq<Campus> := [
    Campus("1", "University of Lagos", "Lagos", 45000, 92, 5000),
    Campus("2", "University of Ibadan", "Ibadan", 35000, 88, 4000),
    Campus("3", "Covenant University", "Ota", 12000, 85, 3500),
    Campus("4", "Obafemi Awolowo University", "Ile-Ife", 30000, 82, 3000),
    Campus("5", "Ahmadu Bello University", "Zaria", 40000, 78, 2800),
    Campus("6", "University of Nigeria", "Nsukka", 25000, 75, 2500)
  ]

  /** The ids of the campus buttons, in the order of the list. */
  const CampusIds: seq<string> := ["1", "2", "3", "4", "5", "6"]

  datatype ChallengeData = ChallengeData(
    title: string,
    description: string,
    budget: int,
    duration: int,
    selectedCampuses: seq<string>,
    targetAudience: string,
    priority: string)

  const InitialData := ChallengeData("", "", 0, 7, [], "all", "normal")

  // ---------------------------------------------------------------------
  // Campus selection

  function IsId(id: string): string -> bool {
    x => x == id
  }

  function NotId(id: string): string -> bool {
    x => x != id
  }

  /** `handleCampusToggle`: drop every copy of a selected id, or append an
      unselected one. */
  function Toggle(selected: seq<string>, id: string): seq<string> {
    if id in selected then Filter(selected, NotId(id)) else selected + [id]
  }

  /** Toggling flips the membership of the toggled id and of no other id;
      an unselected id goes to the end. */
  lemma ToggleFlips(selected: seq<string>, id: string)
    ensures id in Toggle(selected, id) <==> id !in selected
    ensures forall other :: other != id ==> (other in Toggle(selected, id) <==> other in selected)
    ensures id !in selected ==> Toggle(selected, id) == selected + [id]
  {
    if id in selected {
      forall other | other != id && other in selected
        ensures other in Toggle(selected, id)
      {
        var i :| 0 <= i < |selected| && selected[i] == other;
        assert NotId(id)(selected[i]);
      }
    }
  }

  /** Toggling an unselected campus twice restores the selection. */
  lemma {:induction false} ToggleTwice(selected: seq<string>, id: string)
    requires id !in selected
    ensures Toggle(Toggle(selected, id), id) == selected
  {
    assert id in selected + [id];
    FilterAppend(selected, [id], NotId(id));
    FilterAll(selected, NotId(id));
    assert Filter([id], NotId(id)) == [];
  }

  /** A selection without duplicates stays without duplicates. */
  lemma ToggleNoDuplicates(selected: seq<string>, id: string)
    requires NoDuplicates(selected)
    ensures NoDuplicates(Toggle(selected, id))
  {
    if id in selected {
      FilterNoDuplicates(selected, NotId(id));
    }
  }

  // ---------------------------------------------------------------------
  // Cost and reach

  function CampusId(c: Campus): string {
    c.id
  }

  function Price(c: Campus): int {
    c.price
  }

  function StudentCount(c: Campus): int {
    c.studentCount
  }

  /** The term one id adds to a `reduce` over the selection:
      `campus?.m || 0`. */
  function Measure(catalog: seq<Campus>, m: Campus -> int): string -> int {
    id => match Find(catalog, CampusId, id) case Some(c) => m(c) case None => 0
  }

  /** `calculateTotalCost`. */
  function TotalCost(selected: seq<string>): int {
    SumOf(selected, Measure(Campuses, Price))
  }

  /** `getEstimatedReach`. */
  function EstimatedReach(selected: seq<string>): int {
    SumOf(selected, Measure(Campuses, StudentCount))
  }

  /** A selection without duplicates that holds the catalog's first id adds
      at most that campus's term for it. */
  lemma {:induction false} AtMostOnce(selected: seq<string>, id: string, f: string -> int)
    requires NoDuplicates(selected)
    requires f(id) >= 0
    ensures SumOf(Filter(selected, IsId(id)), f) <= f(id)
  {
    var s := Filter(selected, IsId(id));
    FilterNoDuplicates(selected, IsId(id));
    assert forall i :: 0 <= i < |s| ==> s[i] == id by {
      forall i | 0 <= i < |s| ensures s[i] == id {
        assert IsId(id)(s[i]);
      }
    }
    FirstTwoDiffer(s);
    if |s| == 1 {
      assert IsId(id)(s[0]);
      assert s[..0] == [];
    }
  }

  lemma FirstTwoDiffer(s: seq<string>)
    requires NoDuplicates(s)
    ensures |s| >= 2 ==> s[0] != s[1]
  {
  }

  /** With an empty catalog every id adds 0. */
  lemma {:induction false} EmptyCatalogSum(selected: seq<string>, m: Campus -> int)
    ensures SumOf(selected, Measure([], m)) == 0
  {
    if selected != [] {
      EmptyCatalogSum(selected[..|selected| - 1], m);
      assert Find([], CampusId, selected[|selected| - 1]).None?;
    }
  }

  /** Summed over a selection without duplicates, a non-negative measure is
      at most its sum over the whole catalog: each campus counts at most
      once and unknown ids count nothing. */
  lemma {:induction false} SelectionBound(catalog: seq<Campus>, selected: seq<string>, m: Campus -> int)
    requires NoDuplicates(selected)
    requires forall i :: 0 <= i < |catalog| ==> m(catalog[i]) >= 0
    ensures SumOf(selected, Measure(catalog, m)) <= SumOf(catalog, m)
    decreases |catalog|, 1
  {
    if catalog == [] {
      EmptyCatalogSum(selected, m);
    } else {
      var c0 := catalog[0];
      var rest := catalog[1..];
      var f := Measure(catalog, m);
      var mine := Filter(selected, IsId(c0.id));
      var others := Filter(selected, NotId(c0.id));
      assert SumOf(selected, f) == SumOf(mine, f) + SumOf(others, f) by {
        SumOfPartition(selected, f, IsId(c0.id), NotId(c0.id));
      }
      assert SumOf(others, f) <= SumOf(rest, m) by {
        OthersBound(catalog, selected, m);
      }
      assert SumOf(mine, f) <= m(c0) by {
        assert Find(catalog, CampusId, c0.id) == Some(c0);
        assert f(c0.id) == m(c0);
        AtMostOnce(selected, c0.id, f);
      }
      assert SumOf(catalog, m) == m(c0) + SumOf(rest, m) by {
        assert catalog == [c0] + rest;
        SumOfCons(c0, rest, m);
      }
    }
  }

  /** The ids other than the catalog's first are measured as in the rest of
      the catalog. */
  lemma {:induction false} OthersBound(catalog: seq<Campus>, selected: seq<string>, m: Campus -> int)
    requires catalog != []
    requires NoDuplicates(selected)
    requires forall i :: 0 <= i < |catalog| ==> m(catalog[i]) >= 0
    ensures SumOf(Filter(selected, NotId(catalog[0].id)), Measure(catalog, m))
            <= SumOf(catalog[1..], m)
    decreases |catalog|, 0
  {
    var rest := catalog[1..];
    var others := Filter(selected, NotId(catalog[0].id));
    var f := Measure(catalog, m);
    var g := Measure(rest, m);
    forall i | 0 <= i < |others| ensures f(others[i]) == g(others[i]) {
      assert NotId(catalog[0].id)(others[i]);
      assert Find(catalog, CampusId, others[i]) == Find(rest, CampusId, others[i]);
    }
    SumOfSame(others, f, g);
    FilterNoDuplicates(selected, NotId(catalog[0].id));
    SelectionBound(rest, others, m);
  }

  /** Every campus price is positive and the six prices add up to 20800. */
  lemma CatalogPrices()
    ensures forall i :: 0 <= i < |Campuses| ==> Price(Campuses[i]) >= 2500
    ensures SumOf(Campuses, Price) == 20800
  {
    assert SumOf(Campuses[..1], Price) == 5000 by { assert Campuses[..1][..0] == []; }
    assert SumOf(Campuses[..2], Price) == 9000 by { assert Campuses[..2][..1] == Campuses[..1]; }
    assert SumOf(Campuses[..3], Price) == 12500 by { assert Campuses[..3][..2] == Campuses[..2]; }
    assert SumOf(Campuses[..4], Price) == 15500 by { assert Campuses[..4][..3] == Campuses[..3]; }
    assert SumOf(Campuses[..5], Price) == 18300 by { assert Campuses[..5][..4] == Campuses[..4]; }
    assert Campuses[..6] == Campuses;
  }

  /** The six student counts add up to 187000. */
  lemma CatalogReach()
    ensures forall i :: 0 <= i < |Campuses| ==> StudentCount(Campuses[i]) >= 12000
    ensures SumOf(Campuses, StudentCount) == 187000
  {
    assert SumOf(Campuses[..1], StudentCount) == 45000 by { assert Campuses[..1][..0] == []; }
    assert SumOf(Campuses[..2], StudentCount) == 80000 by { assert Campuses[..2][..1] == Campuses[..1]; }
    assert SumOf(Campuses[..3], StudentCount) == 92000 by { assert Campuses[..3][..2] == Campuses[..2]; }
    assert SumOf(Campuses[..4], StudentCount) == 122000 by { assert Campuses[..4][..3] == Campuses[..3]; }
    assert SumOf(Campuses[..5], StudentCount) == 162000 by { assert Campuses[..5][..4] == Campuses[..4]; }
    assert Campuses[..6] == Campuses;
  }

  /** With no campus selected twice, the cost is between 0 and 20800 and the
      reach between 0 and 187000. */
  lemma CostAndReachBounds(selected: seq<string>)
    requires NoDuplicates(selected)
    ensures 0 <= TotalCost(selected) <= 20800
    ensures 0 <= EstimatedReach(selected) <= 187000
  {
    CatalogPrices();
    CatalogReach();
    SelectionBound(Campuses, selected, Price);
    SelectionBound(Campuses, selected, StudentCount);
    MeasureNonNegative(Campuses, Price, selected);
    MeasureNonNegative(Campuses, StudentCount, selected);
  }

  lemma MeasureNonNegative(catalog: seq<Campus>, m: Campus -> int, selected: seq<string>)
    requires forall i :: 0 <= i < |catalog| ==> m(catalog[i]) >= 0
    ensures SumOf(selected, Measure(catalog, m)) >= 0
  {
    forall i | 0 <= i < |selected| ensures Measure(catalog, m)(selected[i]) >= 0 {
      var r := Find(catalog, CampusId, selected[i]);
      if r.Some? {
        var k :| 0 <= k < |catalog| && catalog[k] == r.value;
      }
    }
    SumOfNonNegative(selected, Measure(catalog, m));
  }

  /** The price of a campus on offer, as the cost of selecting it alone. */
  lemma KnownCampusPrice(id: string)
    requires id in CampusIds
    ensures Measure(Campuses, Price)(id) >= 2500
  {
    var r := Find(Campuses, CampusId, id);
    assert r.Some?;
    var k :| 0 <= k < |Campuses| && Campuses[k] == r.value;
    CatalogPrices();
  }

  /** A selection of campuses on offer that is not empty costs at least the
      cheapest price, 2500. */
  lemma NonEmptySelectionCost(selected: seq<string>)
    requires selected != []
    requires forall i :: 0 <= i < |selected| ==> selected[i] in CampusIds
    ensures TotalCost(selected) >= 2500
  {
    CatalogPrices();
    MeasureNonNegative(Campuses, Price, []);
    forall i | 0 <= i < |selected| ensures Measure(Campuses, Price)(selected[i]) >= 0 {
      KnownCampusPrice(selected[i]);
    }
    KnownCampusPrice(selected[0]);
    SumOfAtLeastTerm(selected, Measure(Campuses, Price), 0);
  }


  // ---------------------------------------------------------------------
  // The wizard

  /** `canProceed`: whether the Next button is enabled at a step. */
  predicate CanProceed(step: int, data: ChallengeData) {
    if step == 1 then Trim(data.title) != [] && Trim(data.description) != []
    else if step == 2 then |data.selectedCampuses| > 0
    else step == 3
  }

  /** Step 1 needs a title and a description that hold more than white
      space, step 2 a campus, step 3 nothing, and no other step can
      proceed. */
  lemma CanProceedCorrect(step: int, data: ChallengeData)
    ensures step == 1 ==> (CanProceed(step, data) <==>
              (exists i :: 0 <= i < |data.title| && !IsSpace(data.title[i]))
              && (exists i :: 0 <= i < |data.description| && !IsSpace(data.description[i])))
    ensures step == 2 ==> (CanProceed(step, data) <==> data.selectedCampuses != [])
    ensures step == 3 ==> CanProceed(step, data)
    ensures !(1 <= step <= 3) ==> !CanProceed(step, data)
  {
    TrimNonEmptyIff(data.title);
    TrimNonEmptyIff(data.description);
  }

  /** The record passed to `onComplete`. */
  datatype Campaign = Campaign(
    data: ChallengeData,
    totalCost: int,
    estimatedReach: int,
    id: string,
    createdAt: string)

  /** A change typed into one of the details fields of step 1. */
  datatype DetailsChange =
    | SetTitle(title: string)
    | SetDescription(description: string)
    | SetDuration(duration: int)
    | SetPriority(priority: string)

  function ApplyChange(d: ChallengeData, c: DetailsChange): ChallengeData {
    match c
    case SetTitle(t) => d.(title := t)
    case SetDescription(t) => d.(description := t)
    case SetDuration(n) => d.(duration := n)
    case SetPriority(p) => d.(priority := p)
  }

  /** A change on the details step sets its own field and leaves the
      others alone (no input ever sets the budget or the audience); the
      campus selection is among them, so neither the price nor the reach
      moves. */
  lemma CostIgnoresDetails(d: ChallengeData, c: DetailsChange)
    ensures ApplyChange(d, c).title == if c.SetTitle? then c.title else d.title
    ensures ApplyChange(d, c).description == if c.SetDescription? then c.description else d.description
    ensures ApplyChange(d, c).duration == if c.SetDuration? then c.duration else d.duration
    ensures ApplyChange(d, c).priority == if c.SetPriority? then c.priority else d.priority
    ensures ApplyChange(d, c).budget == d.budget && ApplyChange(d, c).targetAudience == d.targetAudience
    ensures ApplyChange(d, c).selectedCampuses == d.selectedCampuses
    ensures TotalCost(ApplyChange(d, c).selectedCampuses) == TotalCost(d.selectedCampuses)
    ensures EstimatedReach(ApplyChange(d, c).selectedCampuses) == EstimatedReach(d.selectedCampuses)
  {
  }

  class Wizard {
    var step: int
    var formData: ChallengeData

    /** The step is 1, 2 or 3, no campus is selected twice, only campuses on
        offer are selected, and a step was reached only through an enabled
        Next button. */
    predicate Valid()
      reads this
    {
      1 <= step <= 3
      && NoDuplicates(formData.selectedCampuses)
      && (forall i :: 0 <= i < |formData.selectedCampuses| ==> formData.selectedCampuses[i] in CampusIds)
      && (step >= 2 ==> CanProceed(1, formData))
      && (step == 3 ==> CanProceed(2, formData))
    }

    constructor ()
      ensures Valid()
      ensures step == 1 && formData == InitialData
    {
      step := 1;
      formData := InitialData;
    }

    /** `handleInputChange` from the details inputs, shown at step 1. */
    method ChangeDetails(c: DetailsChange)
      requires Valid() && step == 1
      modifies this
      ensures Valid()
      ensures step == old(step) && formData == ApplyChange(old(formData), c)
    {
      formData := ApplyChange(formData, c);
    }

    /** `handleCampusToggle` from a campus button, shown at step 2. */
    method ToggleCampus(id: string)
      requires Valid() && step == 2 && id in CampusIds
      modifies this
      ensures Valid()
      ensures step == old(step)
      ensures formData == old(formData).(selectedCampuses := Toggle(old(formData.selectedCampuses), id))
    {
      ToggleNoDuplicates(formData.selectedCampuses, id);
      ToggleFlips(formData.selectedCampuses, id);
      var next := Toggle(formData.selectedCampuses, id);
      forall i | 0 <= i < |next| ensures next[i] in CampusIds {
        if next[i] != id {
          assert next[i] in formData.selectedCampuses;
        }
      }
      formData := formData.(selectedCampuses := next);
    }

    /** The Next / Create Campaign button. A click on the disabled button
        does nothing; before the last step it advances; at the last step it
        emits the campaign with the cost and the reach of the selection. */
    method Next(id: string, createdAt: string) returns (emitted: Option<Campaign>)
      requires Valid()
      modifies this
      ensures Valid()
      ensures formData == old(formData)
      ensures !CanProceed(old(step), old(formData)) ==> step == old(step) && emitted.None?
      ensures CanProceed(old(step), old(formData)) && old(step) < 3 ==>
                step == old(step) + 1 && emitted.None?
      ensures old(step) == 3 ==> step == 3 && emitted == Some(Campaign(formData,
                TotalCost(formData.selectedCampuses), EstimatedReach(formData.selectedCampuses),
                id, createdAt))
      ensures emitted.Some? ==> 2500 <= emitted.value.totalCost <= 20800
                                && 0 <= emitted.value.estimatedReach <= 187000
                                && emitted.value.data.selectedCampuses != []
    {
      emitted := None;
      if !CanProceed(step, formData) {
        return;
      }
      if step < 3 {
        step := step + 1;
      } else {
        CostAndReachBounds(formData.selectedCampuses);
        NonEmptySelectionCost(formData.selectedCampuses);
        var cost := TotalCost(formData.selectedCampuses);
        var reach := EstimatedReach(formData.selectedCampuses);
        emitted := Some(Campaign(formData, cost, reach, id, createdAt));
      }
    }

    /** The Back / Cancel button: back one step, or cancel at the first. */
    method Back() returns (cancelled: bool)
      requires Valid()
      modifies this
      ensures Valid()
      ensures formData == old(formData)
      ensures old(step) > 1 ==> step == old(step) - 1 && !cancelled
      ensures old(step) == 1 ==> step == 1 && cancelled
    {
      if step > 1 {
        step := step - 1;
        cancelled := false;
      } else {
        cancelled := true;
      }
    }
  }
}
