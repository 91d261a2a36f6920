/** The manual menu page (pages/ManualMode.tsx): the user ticks dishes; `generateMenu` turns the
    ticked active recipes into day plans, one per main dish, with side dishes handed out round
    robin, and fails when nothing at all can be planned.

    `Math.random()` becomes the injected index `draw`; `new Date().toLocaleDateString()` becomes
    the opaque label `today`. */
module ManualMode {
  import opened Types
  import opened Sequences
  import opened Strings
  import opened Storage

  /** `toggleSelect`: a ticked id is unticked and an unticked one is ticked. */
  function Toggled(sel: set<string>, id: string): (r: set<string>)
    ensures id in r <==> id !in sel
    ensures forall x :: x != id ==> (x in r <==> x in sel)
  {
    if id in sel then sel - {id} else sel + {id}
  }

  lemma ToggleTwiceRestores(sel: set<string>, id: string)
    ensures Toggled(Toggled(sel, id), id) == sel
  {
  }

  /** The ticked active recipes, in catalog order (the order of ticking is not kept). */
  function Selected(active: seq<Recipe>, sel: set<string>): (r: seq<Recipe>)
    ensures forall i :: 0 <= i < |r| ==> r[i].id in sel
  {
    FilterSatisfies(active, (r: Recipe) => r.id in sel);
    Filter(active, (r: Recipe) => r.id in sel)
  }

  /** The selected A dishes followed by the selected B dishes. */
  function Mains(active: seq<Recipe>, sel: set<string>): (r: seq<Recipe>)
    ensures forall i :: 0 <= i < |r| ==> r[i].category != C
  {
    OfCategory(Selected(active, sel), A) + OfCategory(Selected(active, sel), B)
  }

  /** `finalC`: the selected C dishes; failing those, one C dish drawn from the whole active
      catalog; failing that, none. */
  function SidePool(active: seq<Recipe>, sel: set<string>, draw: nat): seq<Recipe>
    requires DrawFits(draw, OfCategory(active, C))
  {
    var chosen := OfCategory(Selected(active, sel), C);
    var allC := OfCategory(active, C);
    if |chosen| > 0 then chosen
    else if |allC| > 0 then [allC[draw]]
    else []
  }

  /** The label of day i: today for the first day, then `Day ${i + 1}`. */
  function DayLabel(today: string, i: nat): string {
    if i == 0 then today else "Day " + NatToString(i + 1)
  }

  /** Day i of a menu with mains: the i-th main and the pool's sides in turn. */
  function MenuDay(mains: seq<Recipe>, pool: seq<Recipe>, today: string, i: nat): DayPlan
    requires i < |mains|
  {
    DayPlan(DayLabel(today, i), Some(mains[i]), if |pool| > 0 then Some(pool[i % |pool|]) else None)
  }

  /** The plans `generateMenu` builds. */
  function MenuPlans(active: seq<Recipe>, sel: set<string>, draw: nat, today: string): seq<DayPlan>
    requires DrawFits(draw, OfCategory(active, C))
  {
    var mains := Mains(active, sel);
    var pool := SidePool(active, sel, draw);
    if |mains| == 0 && |pool| > 0 then [DayPlan(today, None, Some(pool[0]))]
    else MainDays(mains, pool, today)
  }

  /** One day per main, in order. */
  function MainDays(mains: seq<Recipe>, pool: seq<Recipe>, today: string): seq<DayPlan> {
    seq(|mains|, i requires 0 <= i < |mains| => MenuDay(mains, pool, today, i))
  }

  /** The `mains.forEach` loop. */
  method DistributeMains(mains: seq<Recipe>, finalC: seq<Recipe>, today: string) returns (plans: seq<DayPlan>)
    ensures plans == MainDays(mains, finalC, today)
  {
    plans := [];
    var index := 0;
    while index < |mains|
      invariant 0 <= index <= |mains|
      invariant plans == MainDays(mains, finalC, today)[..index]
    {
      var side := if |finalC| > 0 then Some(finalC[index % |finalC|]) else None;
      var day := DayPlan(if index == 0 then today else "Day " + NatToString(index + 1), Some(mains[index]), side);
      assert day == MainDays(mains, finalC, today)[index];
      PrefixExtend(MainDays(mains, finalC, today), index);
      plans := plans + [day];
      index := index + 1;
    }
    assert MainDays(mains, finalC, today)[..index] == MainDays(mains, finalC, today);
  }

  /** The loop of `generateMenu`, pushing one plan per main. */
  method BuildMenu(active: seq<Recipe>, sel: set<string>, draw: nat, today: string) returns (plans: seq<DayPlan>)
    requires DrawFits(draw, OfCategory(active, C))
    ensures plans == MenuPlans(active, sel, draw, today)
  {
    var selected := Selected(active, sel);
    var aList := OfCategory(selected, A);
    var bList := OfCategory(selected, B);
    var cList := OfCategory(selected, C);
    var finalC := cList;
    if |cList| == 0 {
      var allC := OfCategory(active, C);
      if |allC| > 0 {
        finalC := [allC[draw]];
      }
    }
    var mains := aList + bList;
    plans := [];
    if |mains| == 0 && |finalC| > 0 {
      plans := plans + [DayPlan(today, None, Some(finalC[0]))];
    } else {
      plans := DistributeMains(mains, finalC, today);
    }
  }

  lemma SelectedMembers(active: seq<Recipe>, sel: set<string>, r: Recipe)
    ensures r in Selected(active, sel) <==> r in active && r.id in sel
  {
    FilterMembers(active, (r: Recipe) => r.id in sel, r);
  }

  lemma OfCategoryMembers(rs: seq<Recipe>, c: Category, r: Recipe)
    ensures r in OfCategory(rs, c) <==> r in rs && r.category == c
  {
    FilterMembers(rs, (x: Recipe) => x.category == c, r);
  }

  /** The mains are exactly the ticked active A and B dishes, all A dishes first. */
  lemma MainsAreSelectedAThenB(active: seq<Recipe>, sel: set<string>, r: Recipe)
    ensures r in Mains(active, sel) <==> r in active && r.id in sel && r.category != C
    ensures forall i, j :: 0 <= i < j < |Mains(active, sel)| && Mains(active, sel)[i].category == B ==>
      Mains(active, sel)[j].category == B
  {
    var s := Selected(active, sel);
    SelectedMembers(active, sel, r);
    OfCategoryMembers(s, A, r);
    OfCategoryMembers(s, B, r);
    var m := Mains(active, sel);
    forall i, j | 0 <= i < j < |m| && m[i].category == B ensures m[j].category == B {
      assert i >= |OfCategory(s, A)|;
    }
  }

  /** Every side in the pool is an active C dish. The pool is the ticked C dishes when some C
      dish is ticked, otherwise the one drawn from all active C dishes; it is empty only when
      the catalog has no active C dish. */
  lemma SidePoolIsCategoryC(active: seq<Recipe>, sel: set<string>, draw: nat)
    requires DrawFits(draw, OfCategory(active, C))
    ensures forall r :: r in SidePool(active, sel, draw) ==>
      r in active && r.category == C && (|OfCategory(Selected(active, sel), C)| > 0 ==> r.id in sel)
    ensures |SidePool(active, sel, draw)| == 0 <==> |OfCategory(active, C)| == 0
    ensures |OfCategory(Selected(active, sel), C)| > 0
        ==> SidePool(active, sel, draw) == OfCategory(Selected(active, sel), C)
    ensures |OfCategory(Selected(active, sel), C)| == 0 && |OfCategory(active, C)| > 0
        ==> SidePool(active, sel, draw) == [OfCategory(active, C)[draw]]
  {
    var chosen := OfCategory(Selected(active, sel), C);
    var allC := OfCategory(active, C);
    forall r | r in SidePool(active, sel, draw)
      ensures r in active && r.category == C && (|chosen| > 0 ==> r.id in sel)
    {
      if |chosen| > 0 {
        OfCategoryMembers(Selected(active, sel), C, r);
        SelectedMembers(active, sel, r);
      } else {
        OfCategoryMembers(active, C, r);
      }
    }
    if |chosen| > 0 {
      OfCategoryMembers(Selected(active, sel), C, chosen[0]);
      SelectedMembers(active, sel, chosen[0]);
      OfCategoryMembers(active, C, chosen[0]);
    }
  }

  /** `generateMenu` alerts exactly when no A or B dish is ticked and the catalog holds no
      active C dish at all. */
  lemma MenuEmptyExactlyWhenNothingToPlan(active: seq<Recipe>, sel: set<string>, draw: nat, today: string)
    requires DrawFits(draw, OfCategory(active, C))
    ensures MenuPlans(active, sel, draw, today) == []
        <==> |Mains(active, sel)| == 0 && |OfCategory(active, C)| == 0
  {
    SidePoolIsCategoryC(active, sel, draw);
  }

  /** Without a main dish the menu is a single side-only day, using the first ticked C dish
      even when several are ticked. */
  lemma SideOnlyMenu(active: seq<Recipe>, sel: set<string>, draw: nat, today: string)
    requires DrawFits(draw, OfCategory(active, C))
    requires |Mains(active, sel)| == 0 && |OfCategory(active, C)| > 0
    ensures var plans := MenuPlans(active, sel, draw, today);
      && |plans| == 1
      && plans[0].date == today && plans[0].mainDish == None
      && plans[0].sideDish == Some(SidePool(active, sel, draw)[0])
      && (|OfCategory(Selected(active, sel), C)| > 0
          ==> plans[0].sideDish == Some(OfCategory(Selected(active, sel), C)[0]))
  {
    SidePoolIsCategoryC(active, sel, draw);
  }

  /** With main dishes, day i serves the i-th main with the pool's sides taken in turn. */
  lemma RoundRobinMenu(active: seq<Recipe>, sel: set<string>, draw: nat, today: string, i: nat)
    requires DrawFits(draw, OfCategory(active, C))
    requires i < |Mains(active, sel)|
    ensures var plans := MenuPlans(active, sel, draw, today);
      var pool := SidePool(active, sel, draw);
      && |plans| == |Mains(active, sel)|
      && plans[i].mainDish == Some(Mains(active, sel)[i])
      && (|pool| == 0 ==> plans[i].sideDish == None)
      && (|pool| > 0 ==> plans[i].sideDish == Some(pool[i % |pool|]))
  {
  }

  /** Only the first day carries today's date; the later labels are pairwise distinct. */
  lemma LaterLabelsDistinct(today: string, i: nat, j: nat)
    requires 0 < i < j
    ensures DayLabel(today, i) != DayLabel(today, j)
  {
    var a := DayLabel(today, i);
    var b := DayLabel(today, j);
    if a == b {
      assert a[4..] == NatToString(i + 1) && b[4..] == NatToString(j + 1);
      NatToStringInjective(i + 1, j + 1);
    }
  }

  /** Each day's dishes come from the mains and the side pool. */
  lemma MenuDishesFromPools(active: seq<Recipe>, sel: set<string>, draw: nat, today: string, d: nat)
    requires DrawFits(draw, OfCategory(active, C))
    requires d < |MenuPlans(active, sel, draw, today)|
    ensures var day := MenuPlans(active, sel, draw, today)[d];
      && (day.mainDish.Some? ==> day.mainDish.value in Mains(active, sel))
      && (day.sideDish.Some? ==> day.sideDish.value in SidePool(active, sel, draw))
  {
    var mains := Mains(active, sel);
    var pool := SidePool(active, sel, draw);
    if !(|mains| == 0 && |pool| > 0) {
      assert MenuPlans(active, sel, draw, today)[d] == MenuDay(mains, pool, today, d);
    }
  }

  /** Deleted recipes never reach a menu: every dish of every day is an active catalog record,
      and every main is ticked. */
  lemma MenuUsesActiveRecipes(rs: seq<Recipe>, sel: set<string>, draw: nat, today: string, d: nat)
    requires DrawFits(draw, OfCategory(ActiveRecipes(rs), C))
    requires d < |MenuPlans(ActiveRecipes(rs), sel, draw, today)|
    ensures var day := MenuPlans(ActiveRecipes(rs), sel, draw, today)[d];
      && (day.mainDish.Some? ==>
            day.mainDish.value in rs && !day.mainDish.value.deleted && day.mainDish.value.id in sel)
      && (day.sideDish.Some? ==> day.sideDish.value in rs && !day.sideDish.value.deleted)
  {
    var active := ActiveRecipes(rs);
    var day := MenuPlans(active, sel, draw, today)[d];
    MenuDishesFromPools(active, sel, draw, today, d);
    if day.mainDish.Some? {
      MainsAreSelectedAThenB(active, sel, day.mainDish.value);
      FilterMembers(rs, IsActive, day.mainDish.value);
    }
    if day.sideDish.Some? {
      SidePoolIsCategoryC(active, sel, draw);
      FilterMembers(rs, IsActive, day.sideDish.value);
    }
  }

  datatype Outcome = AlertNothingSelected | ShowList

  /** The page: the ticked ids are its state, the store its persistence. */
  class ManualModePage {
    var store: Store
    var selectedIds: set<string>

    constructor(store: Store)
      ensures this.store == store && selectedIds == {}
    {
      this.store := store;
      selectedIds := {};
    }

    method ToggleSelect(id: string)
      modifies this
      ensures selectedIds == Toggled(old(selectedIds), id) && store == old(store)
    {
      var newSet := selectedIds;
      if id in newSet {
        newSet := newSet - {id};
      } else {
        newSet := newSet + {id};
      }
      selectedIds := newSet;
    }

    /** `generateMenu`: saves the plans and moves on to the list, or alerts and saves nothing. */
    method GenerateMenu(draw: nat, today: string) returns (outcome: Outcome)
      requires DrawFits(draw, OfCategory(ActiveRecipes(store.recipes), C))
      modifies store
      ensures var plans := MenuPlans(ActiveRecipes(old(store.recipes)), selectedIds, draw, today);
        if plans == [] then
          outcome == AlertNothingSelected && unchanged(store)
        else
          outcome == ShowList && store.currentPlan == plans
          && store.recipes == old(store.recipes) && store.settings == old(store.settings)
    {
      var plans := BuildMenu(ActiveRecipes(store.recipes), selectedIds, draw, today);
      if |plans| == 0 {
        return AlertNothingSelected;
      }
      store.SaveCurrentPlan(plans);
      outcome := ShowList;
    }
  }
}
