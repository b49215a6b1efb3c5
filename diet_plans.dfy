/** The diet-package page: the persisted `dietPlans` array, its filter and the
    create/edit form, whose breakfast/evening fields map onto the plan's nested
    `breakfast.morning` / `breakfast.afternoon`. */
module DietPlans {
  import opened Collections
  import opened Text
  import opened JsNumbers

  datatype Breakfast = Breakfast(morning: string, afternoon: string)

  datatype DietPlan = DietPlan(
    id: int,
    packageName: string,
    dietType: string,
    rate: Number,
    breakfast: Breakfast,
    lunch: string,
    dinner: string,
    totalRate: Number,
    createdDate: string)

  /** The form scratchpad; `rate` is the text of a number input. */
  datatype PlanForm = PlanForm(
    packageName: string,
    dietType: string,
    rate: string,
    breakfast: string,
    lunch: string,
    evening: string,
    dinner: string)

  /** The filter inputs: search box, diet-type select, and the two date inputs. */
  datatype PlanQuery = PlanQuery(search: string, dietType: string, from: string, to: string)

  /** The scratchpad after `resetForm`. */
  const BlankForm := PlanForm("", "Regular", "", "", "", "", "")

  // ---------------------------------------------------------------- filter

  /** The search box looks at the package name and the diet type. */
  predicate MatchesSearch(p: DietPlan, term: string)
  {
    MatchesTerm(p.packageName, term) || MatchesTerm(p.dietType, term)
  }

  /** The type filter: 'All', or exactly (case-sensitively) the plan's type. */
  predicate TypeFilterPasses(filter: string, dietType: string)
  {
    filter == "All" || dietType == filter
  }

  predicate IsVisible(p: DietPlan, q: PlanQuery)
  {
    MatchesSearch(p, q.search) && TypeFilterPasses(q.dietType, p.dietType)
    && InDateRange(p.createdDate, q.from, q.to)
  }

  function VisibleUnder(q: PlanQuery): DietPlan -> bool
  {
    (p: DietPlan) => IsVisible(p, q)
  }

  /** `filteredPlans`: the plans the table shows, in stored order. */
  function FilterPlans(plans: seq<DietPlan>, q: PlanQuery): (r: seq<DietPlan>)
    ensures IsSubsequence(r, plans)
    ensures forall p :: p in r <==> p in plans && IsVisible(p, q)
    ensures forall p :: p in plans ==>
      multiset(r)[p] == if IsVisible(p, q) then multiset(plans)[p] else 0
  {
    FilterIsSubsequence(plans, VisibleUnder(q));
    FilterMembershipAll(plans, VisibleUnder(q));
    FilterMultiplicity(plans, VisibleUnder(q));
    Filter(plans, VisibleUnder(q))
  }

  /** With an empty search term and type 'All', exactly the plans created inside the date
      range are shown; a type filter shows only plans of exactly that type. */
  lemma PlanFilterCases(plans: seq<DietPlan>, q: PlanQuery, p: DietPlan)
    ensures q.search == "" && q.dietType == "All" ==>
      (p in FilterPlans(plans, q) <==> p in plans && InDateRange(p.createdDate, q.from, q.to))
    ensures q.dietType != "All" && p in FilterPlans(plans, q) ==> p.dietType == q.dietType
  {
    EmptyIncluded(p.packageName);
  }

  // ------------------------------------------------------ per-record rewrites

  function HasId(id: int): DietPlan -> bool
  {
    (p: DietPlan) => p.id == id
  }

  function LacksId(id: int): DietPlan -> bool
  {
    (p: DietPlan) => p.id != id
  }

  function PlanId(p: DietPlan): int
  {
    p.id
  }

  /** The fields `handleSubmit` writes from the form, on top of the existing plan:
      `rate` and `totalRate` are both `Number(formData.rate)`. */
  function WithForm(f: PlanForm): DietPlan -> DietPlan
  {
    (p: DietPlan) =>
      p.(packageName := f.packageName, dietType := f.dietType, rate := ToNumber(f.rate),
         breakfast := Breakfast(f.breakfast, f.evening), lunch := f.lunch, dinner := f.dinner,
         totalRate := ToNumber(f.rate))
  }

  /** `handleEdit`: the scratchpad filled from a plan (`rate.toString()`, morning into the
      breakfast field, afternoon into the evening field). */
  function FormOf(p: DietPlan): (f: PlanForm)
    ensures p.totalRate == p.rate ==> WithForm(f)(p) == p
  {
    NumberRoundTrip(p.rate);
    PlanForm(p.packageName, p.dietType, NumberToString(p.rate), p.breakfast.morning, p.lunch,
             p.breakfast.afternoon, p.dinner)
  }

  /** The plan `handleSubmit` creates when no plan is being edited. */
  function NewPlan(id: int, f: PlanForm, today: string): (p: DietPlan)
    ensures p.id == id && p.createdDate == today
    ensures p.rate == ToNumber(f.rate) && p.totalRate == p.rate
    ensures FormOf(p) == f.(rate := NumberToString(ToNumber(f.rate)))
  {
    DietPlan(id, f.packageName, f.dietType, ToNumber(f.rate), Breakfast(f.breakfast, f.evening),
             f.lunch, f.dinner, ToNumber(f.rate), today)
  }

  /** The update branch of `handleSubmit`. */
  function UpdatePlan(plans: seq<DietPlan>, id: int, f: PlanForm): (r: seq<DietPlan>)
    ensures |r| == |plans|
    ensures forall i :: 0 <= i < |r| ==>
      r[i].id == plans[i].id && r[i].createdDate == plans[i].createdDate
    ensures forall i :: 0 <= i < |r| && plans[i].id == id ==>
      r[i].rate == ToNumber(f.rate) && r[i].totalRate == r[i].rate
      && FormOf(r[i]) == f.(rate := NumberToString(ToNumber(f.rate)))
    ensures forall i :: 0 <= i < |r| && plans[i].id != id ==> r[i] == plans[i]
  {
    ReplaceWhere(plans, HasId(id), WithForm(f))
  }

  /** `handleDelete`: the plans with another id, in their stored order. */
  function DeletePlan(plans: seq<DietPlan>, id: int): (r: seq<DietPlan>)
    ensures IsSubsequence(r, plans)
    ensures forall p :: p in r <==> p in plans && p.id != id
    ensures forall p :: p in plans ==>
      multiset(r)[p] == if p.id != id then multiset(plans)[p] else 0
  {
    FilterIsSubsequence(plans, LacksId(id));
    FilterMembershipAll(plans, LacksId(id));
    FilterMultiplicity(plans, LacksId(id));
    Filter(plans, LacksId(id))
  }

  // ------------------------------------------------------------------ lemmas

  /** Every plan's `totalRate` mirrors its `rate`. */
  predicate RatesMirrored(plans: seq<DietPlan>)
  {
    forall i :: 0 <= i < |plans| ==> plans[i].totalRate == plans[i].rate
  }

  /** Create, update and delete all keep `totalRate` equal to `rate`. */
  lemma WritesKeepRatesMirrored(plans: seq<DietPlan>, id: int, f: PlanForm, today: string)
    requires RatesMirrored(plans)
    ensures RatesMirrored(plans + [NewPlan(id, f, today)])
    ensures RatesMirrored(UpdatePlan(plans, id, f))
    ensures RatesMirrored(DeletePlan(plans, id))
  {
    var d := DeletePlan(plans, id);
    forall i | 0 <= i < |d| ensures d[i].totalRate == d[i].rate {
      assert d[i] in d;
      var k :| 0 <= k < |plans| && plans[k] == d[i];
    }
  }

  /** Opening a plan in the editor and submitting the form unchanged leaves the collection
      as it was, provided its total rate mirrors its rate. */
  lemma EditThenSubmitIsNoOp(plans: seq<DietPlan>, p: DietPlan)
    requires forall q :: q in plans && q.id == p.id ==> q == p
    requires p.totalRate == p.rate
    ensures UpdatePlan(plans, p.id, FormOf(p)) == plans
  {
    NumberRoundTrip(p.rate);
    var r := UpdatePlan(plans, p.id, FormOf(p));
    forall i | 0 <= i < |plans| ensures r[i] == plans[i] {
      assert plans[i] in plans;
    }
  }

  /** Create, update and delete keep unique ids unique (create only with an unused id). */
  lemma WritesKeepIdsUnique(plans: seq<DietPlan>, id: int, f: PlanForm, today: string)
    requires UniqueKeys(plans, PlanId)
    ensures id !in KeySet(plans, PlanId) ==> UniqueKeys(plans + [NewPlan(id, f, today)], PlanId)
    ensures UniqueKeys(UpdatePlan(plans, id, f), PlanId)
    ensures UniqueKeys(DeletePlan(plans, id), PlanId)
  {
    if id !in KeySet(plans, PlanId) {
      AppendFreshKey(plans, NewPlan(id, f, today), PlanId);
    }
    ReplaceKeepsUniqueKeys(plans, HasId(id), WithForm(f), PlanId);
    FilterKeepsUniqueKeys(plans, LacksId(id), PlanId);
  }

  /** A plan created with rate text "300" stores total rate 300. */
  lemma RateScenario(id: int, f: PlanForm, today: string)
    requires f.rate == "300"
    ensures NewPlan(id, f, today).totalRate == Num(300, 0)
  {
    assert DigitChar(0) == '0' && DigitChar(3) == '3';
    assert NumberToString(Num(300, 0)) == NatToDigits(30) + [DigitChar(0)] == "300";
    NumberRoundTrip(Num(300, 0));
  }

  /** The two plans the page starts with when nothing is stored yet. */
  function SeedPlans(): (r: seq<DietPlan>)
    ensures |r| == 2 && UniqueKeys(r, PlanId) && RatesMirrored(r)
  {
    [ DietPlan(1, "Diabetic Diet Package", "Therapeutic", Num(350, 0),
               Breakfast("Oats - 100g, Milk - 200ml", "Apple - 1 piece, Green Tea - 1 cup"),
               "Brown Rice - 150g, Dal - 100g, Vegetables - 150g, Salad - 50g",
               "Roti - 2 pieces, Grilled Chicken - 100g, Curry - 100g", Num(350, 0), "2025-06-09"),
      DietPlan(2, "Regular Diet Package", "Regular", Num(250, 0),
               Breakfast("Bread - 2 slices, Butter - 10g, Tea - 1 cup", "Biscuits - 2 pieces, Milk - 150ml"),
               "Rice - 200g, Curry - 150g, Vegetables - 100g, Dal - 100g",
               "Roti - 3 pieces, Dal - 100g, Curd - 100g, Pickle - 10g", Num(250, 0), "2025-06-09") ]
  }

  // ------------------------------------------------------------------- page

  /** The state of the diet-package page. */
  class DietPlansPage {
    var plans: seq<DietPlan>
    var form: PlanForm
    var editing: Option<int>
    var showModal: bool

    /** `useLocalStorage('dietPlans', seed)`: the stored array, or the seed when none is stored. */
    constructor (stored: Option<seq<DietPlan>>)
      ensures plans == (if stored.Some? then stored.value else SeedPlans())
      ensures form == BlankForm && editing == None && !showModal
    {
      plans := if stored.Some? then stored.value else SeedPlans();
      form := BlankForm;
      editing := None;
      showModal := false;
    }

    /** `handleSubmit`: update the plan being edited, or append a new one; then `resetForm`.
        `freshId` stands for `Date.now()`, `today` for the current ISO date. */
    method Submit(freshId: int, today: string)
      modifies this
      ensures old(editing).Some? ==> plans == UpdatePlan(old(plans), old(editing).value, old(form))
      ensures old(editing).None? ==> plans == old(plans) + [NewPlan(freshId, old(form), today)]
      ensures RatesMirrored(old(plans)) ==> RatesMirrored(plans)
      ensures form == BlankForm && editing == None && !showModal
    {
      if RatesMirrored(plans) {
        WritesKeepRatesMirrored(plans, if editing.Some? then editing.value else freshId, form, today);
      }
      if editing.Some? {
        plans := UpdatePlan(plans, editing.value, form);
      } else {
        plans := plans + [NewPlan(freshId, form, today)];
      }
      ResetForm();
    }

    /** `resetForm` */
    method ResetForm()
      modifies this
      ensures form == BlankForm && editing == None && !showModal && plans == old(plans)
    {
      form := BlankForm;
      showModal := false;
      editing := None;
    }

    /** `handleEdit`: copy the plan into the scratchpad and open the dialog on it. */
    method Edit(p: DietPlan)
      modifies this
      ensures form == FormOf(p) && editing == Some(p.id) && showModal && plans == old(plans)
    {
      form := FormOf(p);
      editing := Some(p.id);
      showModal := true;
    }

    /** `handleDelete` */
    method Delete(id: int)
      modifies this`plans
      ensures plans == DeletePlan(old(plans), id)
      ensures RatesMirrored(old(plans)) ==> RatesMirrored(plans)
    {
      if RatesMirrored(plans) {
        WritesKeepRatesMirrored(plans, id, form, "");
      }
      plans := DeletePlan(plans, id);
    }
  }
}
