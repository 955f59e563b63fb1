/**
 * The pure part of the page's search: checking the three form fields,
 * pricing the catalog entries of the chosen crop for the given land area,
 * and keeping the ones within the optional budget.
 */
module Recommendation {
  import opened Wrappers
  import opened Rounding
  import opened Catalog

  /**
   * A numeric form field as the search sees it: Blank is the empty text
   * (falsy), Entered(None) is text that is not a number, Entered(Some(v))
   * is text denoting v.
   */
  datatype Field = Blank | Entered(number: Option<real>)

  /** The current values of the crop selector and the two numeric inputs. */
  datatype Form = Form(crop: string, landArea: Field, budget: Field)

  /** The three checks, in the order the search makes them. */
  datatype SearchError = MissingCrop | InvalidLandArea | InvalidBudget

  /** A form that passed every check. */
  datatype Query = Query(crop: string, area: real, budget: Option<real>)

  /** A catalog entry together with its totals for the land area. */
  datatype Item = Item(name: string, dosage: real, costPerUnit: real, totalDosage: real, totalCost: real)

  /** The alert text the page shows for each failed check. */
  function Message(e: SearchError): (m: string)
    ensures |m| > 7 && m[..7] == "Please " && m[|m| - 1] == '.'
  {
    match e
    case MissingCrop => "Please select a crop."
    case InvalidLandArea => "Please enter a valid land area."
    case InvalidBudget => "Please enter a valid budget."
  }

  /** The user can tell the three failures apart. */
  lemma MessagesDistinct(e1: SearchError, e2: SearchError)
    requires e1 != e2
    ensures Message(e1) != Message(e2)
  {
    assert |Message(MissingCrop)| == 21;
    assert |Message(InvalidLandArea)| == 31;
    assert |Message(InvalidBudget)| == 28;
  }

  predicate PositiveNumber(f: Field)
  {
    f.Entered? && f.number.Some? && f.number.value > 0.0
  }

  /**
   * The checks of the search, first failure wins: the crop must be chosen,
   * then the land area must be a number above zero, then a budget, when one
   * is typed at all, must be a number above zero.
   */
  function Validate(form: Form): (r: Result<Query, SearchError>)
    ensures r == Failure(MissingCrop) <==> form.crop == ""
    ensures r == Failure(InvalidLandArea) <==> form.crop != "" && !PositiveNumber(form.landArea)
    ensures r == Failure(InvalidBudget) <==>
      form.crop != "" && PositiveNumber(form.landArea) && form.budget.Entered? && !PositiveNumber(form.budget)
    ensures r.Success? ==>
      r.value.crop == form.crop && r.value.area > 0.0 && form.landArea == Entered(Some(r.value.area))
    ensures r.Success? ==>
      (r.value.budget == None <==> form.budget == Blank) &&
      (r.value.budget.Some? ==> r.value.budget.value > 0.0 && form.budget == Entered(Some(r.value.budget.value)))
  {
    if form.crop == "" then Failure(MissingCrop)
    else if !PositiveNumber(form.landArea) then Failure(InvalidLandArea)
    else if form.budget.Entered? && !PositiveNumber(form.budget) then Failure(InvalidBudget)
    else
      var budget := if form.budget == Blank then None else Some(form.budget.number.value);
      Success(Query(form.crop, form.landArea.number.value, budget))
  }

  /** A check that fails is reported whatever the fields after it hold. */
  lemma ValidationOrder(form: Form, landArea: Field, budget: Field)
    ensures form.crop == "" ==> Validate(Form(form.crop, landArea, budget)) == Failure(MissingCrop)
    ensures form.crop != "" && !PositiveNumber(form.landArea) ==>
      Validate(Form(form.crop, form.landArea, budget)) == Failure(InvalidLandArea)
  {
  }

  /** Scaling by a non-negative factor keeps the order of non-negative values. */
  lemma ScaleMonotone(x: real, y: real, k: real)
    requires 0.0 <= x <= y && k >= 0.0
    ensures 0.0 <= k * x <= k * y && 0.0 <= x * k <= y * k
  {
    assert k * y - k * x == k * (y - x);
  }

  /**
   * One entry priced for the land area: the entry's own fields are kept,
   * the total dosage is the dosage times the area to the nearest hundredth,
   * and the total cost is that ROUNDED dosage times the cost per unit, again
   * to the nearest hundredth (ties upwards).
   */
  function Price(e: Entry, area: real): (item: Item)
    requires Positive(e) && area > 0.0
    ensures item.name == e.name && item.dosage == e.dosage && item.costPerUnit == e.costPerUnit
    ensures 0.0 <= item.totalDosage && 0.0 <= item.totalCost
    ensures IsHundredths(item.totalDosage) && IsHundredths(item.totalCost)
    ensures item.totalDosage - 0.005 <= e.dosage * area < item.totalDosage + 0.005
    ensures item.totalCost - 0.005 <= item.totalDosage * e.costPerUnit < item.totalCost + 0.005
  {
    ScaleMonotone(0.0, area, e.dosage);
    var totalDosage := Round2(e.dosage * area);
    ScaleMonotone(0.0, totalDosage, e.costPerUnit);
    Round2Hundredths(e.dosage * area);
    Round2Hundredths(totalDosage * e.costPerUnit);
    Item(e.name, e.dosage, e.costPerUnit, totalDosage, Round2(totalDosage * e.costPerUnit))
  }

  /** Every entry priced, in catalog order. */
  function PriceAll(es: seq<Entry>, area: real): (items: seq<Item>)
    requires area > 0.0 && forall i :: 0 <= i < |es| ==> Positive(es[i])
    ensures |items| == |es|
    ensures forall i :: 0 <= i < |es| ==> items[i] == Price(es[i], area)
  {
    if es == [] then [] else [Price(es[0], area)] + PriceAll(es[1..], area)
  }

  /** The items whose total cost is at most the budget, in their original order. */
  function FilterBudget(items: seq<Item>, budget: real): (kept: seq<Item>)
    ensures |kept| <= |items|
    ensures forall it :: it in kept ==> it in items && it.totalCost <= budget
    ensures forall it :: it in items && it.totalCost <= budget ==> it in kept
  {
    if items == [] then []
    else (if items[0].totalCost <= budget then [items[0]] else []) + FilterBudget(items[1..], budget)
  }

  /** s can be obtained from t by deleting elements, without reordering. */
  ghost predicate IsSubsequence(s: seq<Item>, t: seq<Item>)
    decreases |t|
  {
    if s == [] then true
    else if t == [] then false
    else if s[0] == t[0] then IsSubsequence(s[1..], t[1..])
    else IsSubsequence(s, t[1..])
  }

  /** The budget filter only deletes: what it keeps stays in the original order. */
  lemma {:induction false} FilterKeepsOrder(items: seq<Item>, budget: real)
    ensures IsSubsequence(FilterBudget(items, budget), items)
  {
    if items != [] {
      var rest := FilterBudget(items[1..], budget);
      FilterKeepsOrder(items[1..], budget);
      if items[0].totalCost <= budget {
        assert FilterBudget(items, budget) == [items[0]] + rest;
        assert ([items[0]] + rest)[1..] == rest;
      } else {
        assert FilterBudget(items, budget) == rest;
        if rest != [] {
          assert rest[0] in rest;
        }
      }
    }
  }

  /** Filtering a concatenation filters each part: the filter decides item by item. */
  lemma {:induction false} FilterAppend(a: seq<Item>, c: seq<Item>, budget: real)
    ensures FilterBudget(a + c, budget) == FilterBudget(a, budget) + FilterBudget(c, budget)
  {
    if a != [] {
      assert (a + c)[1..] == a[1..] + c;
      FilterAppend(a[1..], c, budget);
    } else {
      assert a + c == c;
    }
  }

  /** The filter keeps everything exactly when every item is within the budget. */
  lemma {:induction false} FilterKeepsAll(items: seq<Item>, budget: real)
    ensures FilterBudget(items, budget) == items <==>
      forall i :: 0 <= i < |items| ==> items[i].totalCost <= budget
  {
    if items != [] {
      var head, tail := items[0], items[1..];
      var rest := FilterBudget(tail, budget);
      FilterKeepsAll(tail, budget);
      assert items == [head] + tail;
      if head.totalCost <= budget {
        assert FilterBudget(items, budget) == [head] + rest;
        assert FilterBudget(items, budget) == items <==> rest == tail by {
          if [head] + rest == [head] + tail {
            assert rest == ([head] + rest)[1..];
          }
        }
        assert (forall i :: 0 <= i < |items| ==> items[i].totalCost <= budget) <==>
               (forall i :: 0 <= i < |tail| ==> tail[i].totalCost <= budget) by {
          forall i | 0 <= i < |tail| ensures tail[i] == items[i + 1] { }
        }
      } else {
        assert FilterBudget(items, budget) == rest;
        assert |rest| <= |tail| < |items|;
      }
    }
  }

  /**
   * The search result for a form: the first failed check, or the catalog
   * entries of the crop priced for the area and, when a budget is given,
   * kept only when within it.
   */
  function Recommend(form: Form): (r: Result<seq<Item>, SearchError>)
    ensures r.Failure? <==> Validate(form).Failure?
    ensures r.Failure? ==> r.error == Validate(form).error
    ensures r.Success? ==> |r.value| <= |Lookup(form.crop)|
    ensures r.Success? && form.budget.Entered? ==>
      forall it :: it in r.value ==> it.totalCost <= form.budget.number.value
  {
    match Validate(form)
    case Failure(e) => Failure(e)
    case Success(q) =>
      var priced := PriceAll(Lookup(q.crop), q.area);
      Success(if q.budget.Some? then FilterBudget(priced, q.budget.value) else priced)
  }

  /** Without a budget every catalog entry of the crop comes back, in order, with its totals. */
  lemma RecommendWithoutBudget(form: Form)
    requires Validate(form).Success? && form.budget == Blank
    ensures Recommend(form).Success?
    ensures |Recommend(form).value| == |Lookup(form.crop)|
    ensures forall i :: 0 <= i < |Lookup(form.crop)| ==>
      var e, it, area := Lookup(form.crop)[i], Recommend(form).value[i], form.landArea.number.value;
      it == Price(e, area)
  {
    var q := Validate(form).value;
    assert Recommend(form) == Success(PriceAll(Lookup(q.crop), q.area));
  }

  /** With a budget the result is the budget-free result with the items above the budget removed. */
  lemma RecommendWithBudget(form: Form, budget: real)
    requires Validate(form).Success? && form.budget == Entered(Some(budget))
    ensures Recommend(Form(form.crop, form.landArea, Blank)).Success?
    ensures Recommend(form) == Success(FilterBudget(Recommend(Form(form.crop, form.landArea, Blank)).value, budget))
  {
  }

  /** The three wheat pesticides priced for one acre. */
  function WheatAtOneAcre(): seq<Item>
  {
    [Item("Chlorpyrifos", 2.0, 500.0, 2.0, 1000.0),
     Item("Malathion", 1.5, 450.0, 1.5, 675.0),
     Item("Deltamethrin", 1.0, 600.0, 1.0, 600.0)]
  }

  /** Wheat at one acre without a budget: 2.00/1000.00, 1.50/675.00 and 1.00/600.00. */
  lemma WheatOneAcre()
    ensures Recommend(Form("wheat", Entered(Some(1.0)), Blank)) == Success(WheatAtOneAcre())
  {
    var es := Lookup("wheat");
    assert es == [Entry("Chlorpyrifos", 2.0, 500.0), Entry("Malathion", 1.5, 450.0), Entry("Deltamethrin", 1.0, 600.0)];
    Round2Exact(2.0);
    Round2Exact(1000.0);
    Round2Exact(1.5);
    Round2Exact(675.0);
    Round2Exact(1.0);
    Round2Exact(600.0);
    assert PriceAll(es, 1.0) == WheatAtOneAcre();
  }

  /** Wheat at one acre within a budget of 700: Chlorpyrifos (1000.00) is dropped. */
  lemma WheatOneAcreBudget700()
    ensures Recommend(Form("wheat", Entered(Some(1.0)), Entered(Some(700.0)))) ==
      Success([WheatAtOneAcre()[1], WheatAtOneAcre()[2]])
  {
    WheatOneAcre();
    RecommendWithBudget(Form("wheat", Entered(Some(1.0)), Entered(Some(700.0))), 700.0);
    WheatFiltered(700.0);
    var items := WheatAtOneAcre();
    assert FilterBudget(items, 700.0) == [] + [items[1]] + [items[2]] == [items[1], items[2]];
  }

  /** The bound is inclusive: a budget of exactly 675 keeps Malathion (675.00). */
  lemma WheatOneAcreBudget675()
    ensures Recommend(Form("wheat", Entered(Some(1.0)), Entered(Some(675.0)))) ==
      Success([WheatAtOneAcre()[1], WheatAtOneAcre()[2]])
  {
    WheatOneAcre();
    RecommendWithBudget(Form("wheat", Entered(Some(1.0)), Entered(Some(675.0))), 675.0);
    WheatFiltered(675.0);
    var items := WheatAtOneAcre();
    assert FilterBudget(items, 675.0) == [] + [items[1]] + [items[2]] == [items[1], items[2]];
  }

  /** A budget below the cheapest total (600.00) leaves nothing, which is not an error. */
  lemma WheatOneAcreBudget500()
    ensures Recommend(Form("wheat", Entered(Some(1.0)), Entered(Some(500.0)))) == Success([])
  {
    WheatOneAcre();
    RecommendWithBudget(Form("wheat", Entered(Some(1.0)), Entered(Some(500.0))), 500.0);
    WheatFiltered(500.0);
  }

  /** Which of the wheat items a budget keeps. */
  lemma WheatFiltered(budget: real)
    ensures var items := WheatAtOneAcre();
      FilterBudget(items, budget) ==
        (if 1000.0 <= budget then [items[0]] else []) +
        (if 675.0 <= budget then [items[1]] else []) +
        (if 600.0 <= budget then [items[2]] else [])
  {
    var items := WheatAtOneAcre();
    var t1 := items[1..];
    var t2 := t1[1..];
    assert t2[1..] == [];
    assert FilterBudget(t2, budget) == (if 600.0 <= budget then [items[2]] else []);
    assert FilterBudget(t1, budget) == (if 675.0 <= budget then [items[1]] else []) + FilterBudget(t2, budget);
  }

  /** Rejected forms: no crop, a land area of 0 or -3, a budget of -1. */
  lemma RejectedForms()
    ensures Recommend(Form("", Entered(Some(5.0)), Blank)) == Failure(MissingCrop)
    ensures Recommend(Form("", Blank, Entered(None))) == Failure(MissingCrop)
    ensures Recommend(Form("wheat", Entered(Some(0.0)), Blank)) == Failure(InvalidLandArea)
    ensures Recommend(Form("wheat", Entered(Some(-3.0)), Blank)) == Failure(InvalidLandArea)
    ensures Recommend(Form("wheat", Blank, Entered(Some(-1.0)))) == Failure(InvalidLandArea)
    ensures Recommend(Form("wheat", Entered(None), Blank)) == Failure(InvalidLandArea)
    ensures Recommend(Form("wheat", Entered(Some(5.0)), Entered(Some(-1.0)))) == Failure(InvalidBudget)
    ensures Recommend(Form("wheat", Entered(Some(5.0)), Entered(None))) == Failure(InvalidBudget)
  {
  }

  /** A crop the table does not know passes the checks and yields no items. */
  lemma UnknownCropYieldsNothing(crop: string, area: real)
    requires crop != "" && crop !in PesticideData && area > 0.0
    ensures Recommend(Form(crop, Entered(Some(area)), Blank)) == Success([])
  {
  }
}
