/**
 * The page component's result state and its search handler: a failed check
 * raises an alert and leaves the shown results alone; a search that passes
 * replaces them with the priced items, or with a one-line notice when none
 * are left.
 */
module Page {
  import opened Wrappers
  import opened Catalog
  import opened Recommendation

  /** The notice shown when a search that passed its checks finds nothing. */
  const NoneWithinBudget: string := "No pesticides within budget."

  /** One entry of the results list: a text notice or a priced pesticide. */
  datatype Row = Notice(text: string) | Priced(item: Item)

  /** What the results area tells the user. */
  datatype ResultState = NoResultsYet | NothingWithinBudget | Recommended(items: seq<Item>)

  /** The items as result rows, one per item, in order. */
  function Rows(items: seq<Item>): (rows: seq<Row>)
    ensures |rows| == |items|
    ensures forall i :: 0 <= i < |items| ==> rows[i] == Priced(items[i])
  {
    if items == [] then [] else [Priced(items[0])] + Rows(items[1..])
  }

  /** The priced items among the rows, in order; notices are skipped. */
  function ItemsOf(rows: seq<Row>): (items: seq<Item>)
    ensures |items| <= |rows|
    ensures forall it :: it in items <==> Priced(it) in rows
  {
    if rows == [] then []
    else (if rows[0].Priced? then [rows[0].item] else []) + ItemsOf(rows[1..])
  }

  /** Reading the items back out of their rows gives the items. */
  lemma {:induction false} ItemsOfRows(items: seq<Item>)
    ensures ItemsOf(Rows(items)) == items
  {
    if items != [] {
      var rows := Rows(items);
      assert rows[1..] == Rows(items[1..]);
      ItemsOfRows(items[1..]);
      assert items == [items[0]] + items[1..];
    }
  }

  /** The rows a passing search stores: the items, or the notice when there are none. */
  function Shown(items: seq<Item>): (rows: seq<Row>)
    ensures rows != []
  {
    if |items| > 0 then Rows(items) else [Notice(NoneWithinBudget)]
  }

  /**
   * How the page reads its stored rows: an empty list is the initial
   * "No results yet." state, the lone notice means nothing was within the
   * budget, anything else lists the priced items.
   */
  function Outcome(rows: seq<Row>): (r: ResultState)
    ensures r == NoResultsYet <==> rows == []
    ensures r == NothingWithinBudget <==> rows == [Notice(NoneWithinBudget)]
    ensures r.Recommended? ==> forall it :: it in r.items <==> Priced(it) in rows
  {
    if |rows| == 0 then NoResultsYet
    else if rows == [Notice(NoneWithinBudget)] then NothingWithinBudget
    else Recommended(ItemsOf(rows))
  }

  /**
   * The three result states stay apart: what a passing search stores is
   * never read as "no results yet", reads as "nothing within budget"
   * exactly when no item was found, and otherwise gives back the items.
   */
  lemma OutcomeOfShown(items: seq<Item>)
    ensures Outcome(Shown(items)) == if items == [] then NothingWithinBudget else Recommended(items)
  {
    if items != [] {
      ItemsOfRows(items);
      assert Shown(items)[0] == Priced(items[0]);
    }
  }

  /**
   * Every page state the program can reach reads as exactly one of the three
   * result states, and a listing is only ever of a non-empty list of items,
   * stored row by row.
   */
  lemma ReachableOutcome(app: App)
    requires app.Valid()
    ensures Outcome(app.pesticides).Recommended? ==>
      Outcome(app.pesticides).items != [] && app.pesticides == Rows(Outcome(app.pesticides).items)
  {
    if app.pesticides != [] {
      var items :| app.pesticides == Shown(items);
      OutcomeOfShown(items);
    }
  }

  class App {
    /** The rows the results area shows; empty until the first passing search. */
    var pesticides: seq<Row>

    /** The stored rows are the initial empty list or what some passing search stored. */
    ghost predicate Valid()
      reads this
    {
      pesticides == [] || exists items :: pesticides == Shown(items)
    }

    constructor ()
      ensures Valid() && pesticides == [] && Outcome(pesticides) == NoResultsYet
    {
      pesticides := [];
    }

    /**
     * The search button. A form that fails a check gives the alert text of
     * the first failed check and leaves the rows as they were; otherwise the
     * rows become the priced, budget-filtered items of the crop, or the
     * notice when none are left.
     */
    method Search(form: Form) returns (alert: Option<string>)
      requires Valid()
      modifies this
      ensures Valid()
      ensures Recommend(form).Failure? ==>
        alert == Some(Message(Recommend(form).error)) && pesticides == old(pesticides)
      ensures Recommend(form).Success? ==>
        alert == None && pesticides == Shown(Recommend(form).value)
      ensures Recommend(form).Success? ==>
        Outcome(pesticides) != NoResultsYet &&
        Outcome(pesticides) == (if Recommend(form).value == [] then NothingWithinBudget
                                else Recommended(Recommend(form).value))
    {
      var checked := Validate(form);
      if checked.Failure? {
        alert := Some(Message(checked.error));
        return;
      }
      var query := checked.value;
      var pesticideList := PriceAll(Lookup(query.crop), query.area);
      if query.budget.Some? {
        pesticideList := FilterBudget(pesticideList, query.budget.value);
      }
      pesticides := Shown(pesticideList);
      alert := None;
      OutcomeOfShown(pesticideList);
    }
  }

  /**
   * A session on a fresh page: a search without a crop leaves "No results
   * yet.", wheat at one acre with a budget of 500 shows the notice, and the
   * same search without a budget lists the three wheat pesticides.
   */
  method Session()
  {
    var app := new App();
    var alert := app.Search(Form("", Entered(Some(1.0)), Blank));
    RejectedForms();
    assert alert == Some("Please select a crop.");
    assert Outcome(app.pesticides) == NoResultsYet;

    alert := app.Search(Form("wheat", Entered(Some(1.0)), Entered(Some(500.0))));
    WheatOneAcreBudget500();
    assert alert == None && Outcome(app.pesticides) == NothingWithinBudget;

    alert := app.Search(Form("wheat", Entered(Some(1.0)), Entered(Some(-1.0))));
    assert Validate(Form("wheat", Entered(Some(1.0)), Entered(Some(-1.0)))) == Failure(InvalidBudget);
    assert Outcome(app.pesticides) == NothingWithinBudget;

    alert := app.Search(Form("wheat", Entered(Some(1.0)), Blank));
    WheatOneAcre();
    assert Outcome(app.pesticides) == Recommended(WheatAtOneAcre());
  }
}
