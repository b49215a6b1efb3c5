/** The food-item page: the persisted `foodItems` array, its filter, the create/edit
    form with its numeric coercion, and the weekday toggles of the form. */
module FoodItems {
  import opened Collections
  import opened Text
  import opened JsNumbers

  /** A food item; the nutrition values and the rate are stored after `Number(x) || 0`. */
  datatype FoodItem = FoodItem(
    id: int,
    name: string,
    itemType: string,
    unit: string,
    calories: Finite,
    fat: Finite,
    carbs: Finite,
    protein: Finite,
    rate: Finite,
    daysAvailable: seq<string>,
    createdDate: string)

  /** The form scratchpad; the numeric fields are the text of number inputs. */
  datatype FoodForm = FoodForm(
    name: string,
    itemType: string,
    unit: string,
    calories: string,
    fat: string,
    carbs: string,
    protein: string,
    rate: string,
    daysAvailable: seq<string>)

  /** The filter inputs: search box, type select, and the two date inputs. */
  datatype FoodQuery = FoodQuery(search: string, itemType: string, from: string, to: string)

  /** The scratchpad after `resetForm`. */
  const BlankForm := FoodForm("", "Vegetarian", "grams", "", "", "", "", "", [])

  // ---------------------------------------------------------------- filter

  /** The search box looks at name, type and unit, and at every available day. */
  predicate MatchesSearch(item: FoodItem, term: string)
  {
    MatchesTerm(item.name, term) || MatchesTerm(item.itemType, term) || MatchesTerm(item.unit, term)
    || exists i :: 0 <= i < |item.daysAvailable| && MatchesTerm(item.daysAvailable[i], term)
  }

  /** The type filter: 'All', or exactly (case-sensitively) the item's type. */
  predicate TypeFilterPasses(filter: string, itemType: string)
  {
    filter == "All" || itemType == filter
  }

  predicate IsVisible(item: FoodItem, q: FoodQuery)
  {
    MatchesSearch(item, q.search) && TypeFilterPasses(q.itemType, item.itemType)
    && InDateRange(item.createdDate, q.from, q.to)
  }

  function VisibleUnder(q: FoodQuery): FoodItem -> bool
  {
    (item: FoodItem) => IsVisible(item, q)
  }

  /** `filteredItems`: the items the table shows, in stored order. */
  function FilterItems(items: seq<FoodItem>, q: FoodQuery): (r: seq<FoodItem>)
    ensures IsSubsequence(r, items)
    ensures forall item :: item in r <==> item in items && IsVisible(item, q)
    ensures forall item :: item in items ==>
      multiset(r)[item] == if IsVisible(item, q) then multiset(items)[item] else 0
  {
    FilterIsSubsequence(items, VisibleUnder(q));
    FilterMembershipAll(items, VisibleUnder(q));
    FilterMultiplicity(items, VisibleUnder(q));
    Filter(items, VisibleUnder(q))
  }

  /** An item is found through any one of its available days, and with the empty search
      term and type 'All' every item created inside the date range is shown. */
  lemma ItemFilterCases(items: seq<FoodItem>, q: FoodQuery, item: FoodItem, k: int)
    requires item in items && q.itemType == "All" && InDateRange(item.createdDate, q.from, q.to)
    ensures 0 <= k < |item.daysAvailable| && MatchesTerm(item.daysAvailable[k], q.search)
            ==> item in FilterItems(items, q)
    ensures q.search == "" ==> item in FilterItems(items, q)
  {
    EmptyIncluded(item.name);
  }

  /** A date range whose start is after its end shows nothing. */
  lemma {:induction false} ReversedRangeShowsNothing(items: seq<FoodItem>, q: FoodQuery)
    requires ParseIsoDate(q.from).Some? && ParseIsoDate(q.to).Some?
    requires !DayLe(ParseIsoDate(q.from).value, ParseIsoDate(q.to).value)
    ensures FilterItems(items, q) == []
  {
    forall i | 0 <= i < |items| ensures !IsVisible(items[i], q) {
      EmptyRange(items[i].createdDate, q.from, q.to);
    }
    FilterDropsAll(items, VisibleUnder(q));
  }

  // ------------------------------------------------------------- coercions

  /** `numericFields` of `handleSubmit`: each numeric text through `Number(x) || 0`. */
  datatype Numbers = Numbers(calories: Finite, fat: Finite, carbs: Finite, protein: Finite, rate: Finite)

  /** Every field is a number (never NaN), and a field holding the text of a number reads
      back as that number. */
  function NumericFields(f: FoodForm): (r: Numbers)
    ensures forall n: Finite :: f.calories == NumberToString(n) ==> r.calories == n
    ensures forall n: Finite :: f.fat == NumberToString(n) ==> r.fat == n
    ensures forall n: Finite :: f.carbs == NumberToString(n) ==> r.carbs == n
    ensures forall n: Finite :: f.protein == NumberToString(n) ==> r.protein == n
    ensures forall n: Finite :: f.rate == NumberToString(n) ==> r.rate == n
  {
    CoerceReadsBack();
    Numbers(Coerce(f.calories), Coerce(f.fat), Coerce(f.carbs), Coerce(f.protein), Coerce(f.rate))
  }

  /** `handleEdit`: the scratchpad filled from an item, numbers through `toString()`. */
  function FormOf(item: FoodItem): (f: FoodForm)
    ensures Coerce(f.calories) == item.calories && Coerce(f.fat) == item.fat
    ensures Coerce(f.carbs) == item.carbs && Coerce(f.protein) == item.protein
    ensures Coerce(f.rate) == item.rate
    ensures f.name == item.name && f.itemType == item.itemType && f.unit == item.unit
    ensures f.daysAvailable == item.daysAvailable
  {
    CoerceRoundTrip(item.calories);
    CoerceRoundTrip(item.fat);
    CoerceRoundTrip(item.carbs);
    CoerceRoundTrip(item.protein);
    CoerceRoundTrip(item.rate);
    FoodForm(item.name, item.itemType, item.unit,
             NumberToString(item.calories), NumberToString(item.fat),
             NumberToString(item.carbs), NumberToString(item.protein),
             NumberToString(item.rate), item.daysAvailable)
  }

  /** Submitting the blank form stores 0 in every numeric field. */
  lemma BlankFormNumbersAreZero()
    ensures NumericFields(BlankForm) == Numbers(Zero, Zero, Zero, Zero, Zero)
  {
    CoerceBlank("");
  }

  // ------------------------------------------------------ per-record rewrites

  function HasId(id: int): FoodItem -> bool
  {
    (item: FoodItem) => item.id == id
  }

  function LacksId(id: int): FoodItem -> bool
  {
    (item: FoodItem) => item.id != id
  }

  function ItemId(item: FoodItem): int
  {
    item.id
  }

  /** `{ ...item, ...formData, ...numericFields, daysAvailable }`: name, type, unit and days
      from the form, numbers coerced; the form has no id or created date, so those stay. */
  function WithForm(f: FoodForm): FoodItem -> FoodItem
  {
    (item: FoodItem) =>
      var n := NumericFields(f);
      item.(name := f.name, itemType := f.itemType, unit := f.unit,
            calories := n.calories, fat := n.fat, carbs := n.carbs, protein := n.protein,
            rate := n.rate, daysAvailable := f.daysAvailable)
  }

  /** The numbers an item holds. */
  function NumbersOf(item: FoodItem): Numbers
  {
    Numbers(item.calories, item.fat, item.carbs, item.protein, item.rate)
  }

  /** The item `handleSubmit` creates when no item is being edited. */
  function NewItem(id: int, f: FoodForm, today: string): (item: FoodItem)
    ensures item.id == id && item.createdDate == today
    ensures NumbersOf(item) == NumericFields(f)
    ensures item.daysAvailable == f.daysAvailable
    ensures item.name == f.name && item.itemType == f.itemType && item.unit == f.unit
  {
    var n := NumericFields(f);
    FoodItem(id, f.name, f.itemType, f.unit, n.calories, n.fat, n.carbs, n.protein, n.rate,
             f.daysAvailable, today)
  }

  /** The update branch of `handleSubmit`. */
  function UpdateItem(items: seq<FoodItem>, id: int, f: FoodForm): (r: seq<FoodItem>)
    ensures |r| == |items|
    ensures forall i :: 0 <= i < |r| ==>
      r[i].id == items[i].id && r[i].createdDate == items[i].createdDate
    ensures forall i :: 0 <= i < |r| && items[i].id == id ==>
      NumbersOf(r[i]) == NumericFields(f) && r[i].daysAvailable == f.daysAvailable
      && r[i].name == f.name && r[i].itemType == f.itemType && r[i].unit == f.unit
    ensures forall i :: 0 <= i < |r| && items[i].id != id ==> r[i] == items[i]
  {
    ReplaceWhere(items, HasId(id), WithForm(f))
  }

  /** `handleDelete`: the items with another id, in their stored order. */
  function DeleteItem(items: seq<FoodItem>, id: int): (r: seq<FoodItem>)
    ensures IsSubsequence(r, items)
    ensures forall item :: item in r <==> item in items && item.id != id
    ensures forall item :: item in items ==>
      multiset(r)[item] == if item.id != id then multiset(items)[item] else 0
  {
    FilterIsSubsequence(items, LacksId(id));
    FilterMembershipAll(items, LacksId(id));
    FilterMultiplicity(items, LacksId(id));
    Filter(items, LacksId(id))
  }

  /** Opening an item in the editor and submitting the form unchanged leaves the collection
      as it was. */
  lemma EditThenSubmitIsNoOp(items: seq<FoodItem>, item: FoodItem)
    requires forall x :: x in items && x.id == item.id ==> x == item
    ensures UpdateItem(items, item.id, FormOf(item)) == items
  {
    var r := UpdateItem(items, item.id, FormOf(item));
    forall i | 0 <= i < |items| ensures r[i] == items[i] {
      assert items[i] in items;
    }
  }

  /** Create, update and delete keep unique ids unique (create only with an unused id). */
  lemma WritesKeepIdsUnique(items: seq<FoodItem>, id: int, f: FoodForm, today: string)
    requires UniqueKeys(items, ItemId)
    ensures id !in KeySet(items, ItemId) ==> UniqueKeys(items + [NewItem(id, f, today)], ItemId)
    ensures UniqueKeys(UpdateItem(items, id, f), ItemId)
    ensures UniqueKeys(DeleteItem(items, id), ItemId)
  {
    if id !in KeySet(items, ItemId) {
      AppendFreshKey(items, NewItem(id, f, today), ItemId);
    }
    ReplaceKeepsUniqueKeys(items, HasId(id), WithForm(f), ItemId);
    FilterKeepsUniqueKeys(items, LacksId(id), ItemId);
  }

  // ------------------------------------------------------------ day toggle

  function Other(day: string): string -> bool
  {
    (d: string) => d != day
  }

  /** `handleDayToggle`'s new list: without every occurrence of `day` if it is there,
      with `day` appended otherwise. */
  function ToggleDay(days: seq<string>, day: string): (r: seq<string>)
    ensures day in days ==> day !in r && IsSubsequence(r, days)
    ensures day in days ==> forall d :: d != day ==> (d in r <==> d in days)
    ensures day in days ==> forall d :: d in days ==>
      multiset(r)[d] == if d != day then multiset(days)[d] else 0
    ensures day !in days ==> r == days + [day]
  {
    if day in days then
      FilterIsSubsequence(days, Other(day));
      FilterMembershipAll(days, Other(day));
      FilterMultiplicity(days, Other(day));
      Filter(days, Other(day))
    else days + [day]
  }

  /** Toggling a day twice restores which days are available. */
  lemma ToggleTwiceRestoresMembership(days: seq<string>, day: string, d: string)
    ensures d in ToggleDay(ToggleDay(days, day), day) <==> d in days
  {
    if day !in days {
      ToggleTwiceRestoresList(days, day);
    }
  }

  /** Toggling an absent day twice restores the exact list. */
  lemma ToggleTwiceRestoresList(days: seq<string>, day: string)
    requires day !in days
    ensures ToggleDay(ToggleDay(days, day), day) == days
  {
    assert day in days + [day];
    FilterAppend(days, [day], Other(day));
    FilterKeepsAll(days, Other(day));
    assert Filter([day], Other(day)) == [];
  }

  /** The two items the page starts with when nothing is stored yet. */
  function SeedItems(): (r: seq<FoodItem>)
    ensures |r| == 2 && UniqueKeys(r, ItemId)
    ensures r[0].fat == Num(9, 1) && r[0].protein == Num(26, 1) && r[1].fat == Num(36, 1)
  {
    [ FoodItem(1, "Brown Rice", "Vegetarian", "grams", Num(112, 0), Num(9, 1), Num(23, 0),
               Num(26, 1), Num(15, 0), ["Mon", "Tue", "Wed", "Thu", "Fri"], "2025-06-09"),
      FoodItem(2, "Grilled Chicken", "Non-Vegetarian", "grams", Num(165, 0), Num(36, 1), Zero,
               Num(31, 0), Num(45, 0), ["Mon", "Tue", "Wed", "Thu", "Fri", "Sat", "Sun"], "2025-06-09") ]
  }

  /** Fractional input, as the inputs' 0.1 and 0.01 steps produce it, is stored with its
      fraction. */
  lemma DecimalFormScenario(id: int, f: FoodForm, today: string)
    requires f.fat == "0.9" && f.rate == "12.99"
    ensures NewItem(id, f, today).fat == Num(9, 1)
    ensures NewItem(id, f, today).rate == Num(1299, 2)
  {
    DecimalInput();
  }

  /** Starting from no items, creating "Rice" makes the search "ric" show exactly it. */
  lemma RiceScenario(f: FoodForm, id: int, today: string, q: FoodQuery)
    requires f.name == "Rice" && f.itemType == "Vegetarian"
    requires q.search == "ric" && q.itemType == "All"
    requires InDateRange(today, q.from, q.to)
    ensures FilterItems([NewItem(id, f, today)], q) == [NewItem(id, f, today)]
  {
    var item := NewItem(id, f, today);
    assert MatchesTerm(item.name, q.search) by {
      var name, term := Lower("Rice"), Lower("ric");
      assert name[..3] == "ric" && term == "ric";
      assert StartsWith(name, term);
    }
    assert IsVisible(item, q);
  }

  // ------------------------------------------------------------------- page

  /** The state of the food-item page. */
  class FoodItemsPage {
    var items: seq<FoodItem>
    var form: FoodForm
    var editing: Option<int>
    var showModal: bool

    /** `useLocalStorage('foodItems', seed)`: the stored array, or the seed when none is stored. */
    constructor (stored: Option<seq<FoodItem>>)
      ensures items == (if stored.Some? then stored.value else SeedItems())
      ensures form == BlankForm && editing == None && !showModal
    {
      items := if stored.Some? then stored.value else SeedItems();
      form := BlankForm;
      editing := None;
      showModal := false;
    }

    /** `handleSubmit`: update the item being edited, or append a new one; then `resetForm`.
        `freshId` stands for `Date.now()`, `today` for the current ISO date. */
    method Submit(freshId: int, today: string)
      modifies this
      ensures old(editing).Some? ==> items == UpdateItem(old(items), old(editing).value, old(form))
      ensures old(editing).None? ==> items == old(items) + [NewItem(freshId, old(form), today)]
      ensures form == BlankForm && editing == None && !showModal
    {
      if editing.Some? {
        items := UpdateItem(items, editing.value, form);
      } else {
        items := items + [NewItem(freshId, form, today)];
      }
      ResetForm();
    }

    /** `resetForm` */
    method ResetForm()
      modifies this
      ensures form == BlankForm && editing == None && !showModal && items == old(items)
    {
      form := BlankForm;
      showModal := false;
      editing := None;
    }

    /** `handleEdit`: copy the item into the scratchpad and open the dialog on it. */
    method Edit(item: FoodItem)
      modifies this
      ensures form == FormOf(item) && editing == Some(item.id) && showModal && items == old(items)
    {
      form := FormOf(item);
      editing := Some(item.id);
      showModal := true;
    }

    /** `handleDelete` */
    method Delete(id: int)
      modifies this`items
      ensures items == DeleteItem(old(items), id)
    {
      items := DeleteItem(items, id);
    }

    /** `handleDayToggle`: only the scratchpad's day list changes. */
    method ToggleFormDay(day: string)
      modifies this`form
      ensures form == old(form).(daysAvailable := ToggleDay(old(form).daysAvailable, day))
    {
      form := form.(daysAvailable := ToggleDay(form.daysAvailable, day));
    }
  }
}
