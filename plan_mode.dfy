/** The random plan page (pages/PlanMode.tsx): for each of the chosen number of days, one main
    dish drawn from the pool the preference selects and one side dish drawn from the active
    C dishes; empty pools leave the slot empty.

    Each `Math.random()` call becomes an injected index; the first day's label
    `new Date().toLocaleDateString()` becomes the opaque `today`. */
module PlanMode {
  import opened Types
  import opened Sequences
  import opened Strings
  import opened Storage

  datatype Preference = Mix | OnlyA | OnlyB

  /** `mainPool`: the active A dishes, the active B dishes, or the A dishes then the B dishes. */
  function MainPool(active: seq<Recipe>, pref: Preference): (r: seq<Recipe>)
    ensures forall i :: 0 <= i < |r| ==> Admits(pref, r[i].category)
  {
    match pref
    case OnlyA => OfCategory(active, A)
    case OnlyB => OfCategory(active, B)
    case Mix => OfCategory(active, A) + OfCategory(active, B)
  }

  /** The categories a preference admits as main dishes. */
  predicate Admits(pref: Preference, c: Category) {
    match pref
    case OnlyA => c == A
    case OnlyB => c == B
    case Mix => c != C
  }

  /** The label of day i: today when a single day is planned, otherwise `第 ${i + 1} 天`. */
  function PlanLabel(days: nat, today: string, i: nat): string {
    if days == 1 then today else "第 " + NatToString(i + 1) + " 天"
  }

  /** Every `Math.random()` draw of the loop fits the pool it indexes. */
  predicate DrawsFit(active: seq<Recipe>, pref: Preference, days: nat, mainDraws: seq<nat>, sideDraws: seq<nat>) {
    && |mainDraws| == days && |sideDraws| == days
    && (forall i :: 0 <= i < days ==> DrawFits(mainDraws[i], MainPool(active, pref)))
    && (forall i :: 0 <= i < days ==> DrawFits(sideDraws[i], OfCategory(active, C)))
  }

  /** Day i of the plan. */
  function PlanDay(active: seq<Recipe>, pref: Preference, days: nat, mainDraw: nat, sideDraw: nat, today: string, i: nat): DayPlan
    requires DrawFits(mainDraw, MainPool(active, pref)) && DrawFits(sideDraw, OfCategory(active, C))
  {
    var mainPool := MainPool(active, pref);
    var poolC := OfCategory(active, C);
    DayPlan(PlanLabel(days, today, i),
            if |mainPool| > 0 then Some(mainPool[mainDraw]) else None,
            if |poolC| > 0 then Some(poolC[sideDraw]) else None)
  }

  /** The plans `generatePlan` saves. */
  function PlannedDays(active: seq<Recipe>, pref: Preference, days: nat, mainDraws: seq<nat>, sideDraws: seq<nat>, today: string): (r: seq<DayPlan>)
    requires DrawsFit(active, pref, days, mainDraws, sideDraws)
    ensures |r| == days
  {
    seq(days, i requires 0 <= i < days => PlanDay(active, pref, days, mainDraws[i], sideDraws[i], today, i))
  }

  /** The `for` loop of `generatePlan`. */
  method GeneratePlanDays(active: seq<Recipe>, pref: Preference, days: nat, mainDraws: seq<nat>, sideDraws: seq<nat>, today: string)
    returns (plans: seq<DayPlan>)
    requires DrawsFit(active, pref, days, mainDraws, sideDraws)
    ensures plans == PlannedDays(active, pref, days, mainDraws, sideDraws, today)
  {
    plans := [];
    var poolA := OfCategory(active, A);
    var poolB := OfCategory(active, B);
    var poolC := OfCategory(active, C);
    for i := 0 to days
      invariant plans == PlannedDays(active, pref, days, mainDraws, sideDraws, today)[..i]
    {
      var mainDish: Option<Recipe> := None;
      var sideDish: Option<Recipe> := None;
      var mainPool: seq<Recipe>;
      if pref == OnlyA {
        mainPool := poolA;
      } else if pref == OnlyB {
        mainPool := poolB;
      } else {
        mainPool := poolA + poolB;
      }
      assert mainPool == MainPool(active, pref);
      if |mainPool| > 0 {
        mainDish := Some(mainPool[mainDraws[i]]);
      }
      if |poolC| > 0 {
        sideDish := Some(poolC[sideDraws[i]]);
      }
      var day := DayPlan(if days == 1 then today else "第 " + NatToString(i + 1) + " 天", mainDish, sideDish);
      assert day == PlanDay(active, pref, days, mainDraws[i], sideDraws[i], today, i);
      PrefixExtend(PlannedDays(active, pref, days, mainDraws, sideDraws, today), i);
      plans := plans + [day];
    }
    assert PlannedDays(active, pref, days, mainDraws, sideDraws, today)[..days]
        == PlannedDays(active, pref, days, mainDraws, sideDraws, today);
  }

  lemma MainPoolMembers(active: seq<Recipe>, pref: Preference, r: Recipe)
    ensures r in MainPool(active, pref) <==> r in active && Admits(pref, r.category)
  {
    FilterMembers(active, (x: Recipe) => x.category == A, r);
    FilterMembers(active, (x: Recipe) => x.category == B, r);
  }

  /** A main is drawn from the preference's pool and a side from the active C dishes; a slot is
      empty exactly when its pool is, which is not an error. */
  lemma PlanSlotsFromPools(active: seq<Recipe>, pref: Preference, days: nat, mainDraws: seq<nat>, sideDraws: seq<nat>, today: string, i: nat)
    requires DrawsFit(active, pref, days, mainDraws, sideDraws)
    requires i < days
    ensures var day := PlannedDays(active, pref, days, mainDraws, sideDraws, today)[i];
      && (day.mainDish.Some? ==> day.mainDish.value in active && Admits(pref, day.mainDish.value.category))
      && (day.mainDish.None? <==> forall r :: r in active ==> !Admits(pref, r.category))
      && (day.sideDish.Some? ==> day.sideDish.value in active && day.sideDish.value.category == C)
      && (day.sideDish.None? <==> forall r :: r in active ==> r.category != C)
  {
    var day := PlannedDays(active, pref, days, mainDraws, sideDraws, today)[i];
    var mainPool := MainPool(active, pref);
    var poolC := OfCategory(active, C);
    if day.mainDish.Some? {
      MainPoolMembers(active, pref, day.mainDish.value);
    } else {
      forall r | r in active ensures !Admits(pref, r.category) {
        MainPoolMembers(active, pref, r);
      }
    }
    if day.sideDish.Some? {
      FilterMembers(active, (x: Recipe) => x.category == C, day.sideDish.value);
    } else {
      forall r | r in active ensures r.category != C {
        FilterMembers(active, (x: Recipe) => x.category == C, r);
      }
    }
    if |mainPool| > 0 {
      MainPoolMembers(active, pref, mainPool[0]);
    }
    if |poolC| > 0 {
      FilterMembers(active, (x: Recipe) => x.category == C, poolC[0]);
    }
  }

  /** Draws are independent per day: equal draws give the same dishes, so dishes may repeat. */
  lemma EqualDrawsRepeatDishes(active: seq<Recipe>, pref: Preference, days: nat, mainDraws: seq<nat>, sideDraws: seq<nat>, today: string, i: nat, j: nat)
    requires DrawsFit(active, pref, days, mainDraws, sideDraws)
    requires i < days && j < days && mainDraws[i] == mainDraws[j] && sideDraws[i] == sideDraws[j]
    ensures PlannedDays(active, pref, days, mainDraws, sideDraws, today)[i].mainDish
         == PlannedDays(active, pref, days, mainDraws, sideDraws, today)[j].mainDish
    ensures PlannedDays(active, pref, days, mainDraws, sideDraws, today)[i].sideDish
         == PlannedDays(active, pref, days, mainDraws, sideDraws, today)[j].sideDish
  {
  }

  /** A single planned day is labelled today. */
  lemma SingleDayLabel(today: string)
    ensures PlanLabel(1, today, 0) == today
  {
  }

  /** With several days the labels are pairwise distinct. */
  lemma PlanLabels(days: nat, today: string, i: nat, j: nat)
    requires i < j < days
    ensures PlanLabel(days, today, i) != PlanLabel(days, today, j)
  {
    var a := PlanLabel(days, today, i);
    var b := PlanLabel(days, today, j);
    if a == b {
      assert a[2..|a| - 2] == NatToString(i + 1);
      assert b[2..|b| - 2] == NatToString(j + 1);
      NatToStringInjective(i + 1, j + 1);
    }
  }

  /** The page: the chosen number of days and preference, and the store. */
  class PlanModePage {
    var store: Store
    var days: nat
    var preference: Preference

    constructor(store: Store)
      ensures this.store == store && days == 1 && preference == Mix
    {
      this.store := store;
      days := 1;
      preference := Mix;
    }

    method SetDays(d: nat)
      modifies this
      ensures days == d && preference == old(preference) && store == old(store)
    {
      days := d;
    }

    method SetPreference(p: Preference)
      modifies this
      ensures preference == p && days == old(days) && store == old(store)
    {
      preference := p;
    }

    /** `generatePlan`: always saves the plan, even one whose slots are all empty. */
    method GeneratePlan(mainDraws: seq<nat>, sideDraws: seq<nat>, today: string)
      requires DrawsFit(ActiveRecipes(store.recipes), preference, days, mainDraws, sideDraws)
      modifies store
      ensures store.currentPlan == PlannedDays(ActiveRecipes(old(store.recipes)), preference, days, mainDraws, sideDraws, today)
      ensures store.recipes == old(store.recipes) && store.settings == old(store.settings)
    {
      var plans := GeneratePlanDays(ActiveRecipes(store.recipes), preference, days, mainDraws, sideDraws, today);
      store.SaveCurrentPlan(plans);
    }
  }
}
