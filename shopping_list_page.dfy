/** The menu and shopping list page (pages/ShoppingList.tsx): loads the saved plan, derives the
    list from it, ticks items off, and swaps the dish of one slot for another active recipe. */
module ShoppingListPage {
  import opened Types
  import opened Sequences
  import opened Storage
  import opened ShoppingAggregation

  /** `toggleItemCheck`: flips `checked` on the items with that name, nothing else. */
  function ToggleItemCheck(items: seq<ShoppingItem>, name: string): (r: seq<ShoppingItem>)
    ensures |r| == |items|
    ensures forall i :: 0 <= i < |r| ==>
      r[i].checked == (items[i].checked != (items[i].name == name))
      && r[i].(checked := items[i].checked) == items[i]
  {
    seq(|items|, i requires 0 <= i < |items| =>
      if items[i].name == name then items[i].(checked := !items[i].checked) else items[i])
  }

  lemma ToggleItemCheckTwice(items: seq<ShoppingItem>, name: string)
    ensures ToggleItemCheck(ToggleItemCheck(items, name), name) == items
  {
  }

  datatype Slot = Main | Side

  /** The recipes offered for a swap: C dishes for the side slot, A and B dishes for the main
      slot, every active recipe when no slot is being edited. */
  function SwapPool(active: seq<Recipe>, slot: Option<Slot>): (r: seq<Recipe>)
    ensures slot == Some(Side) ==> forall i :: 0 <= i < |r| ==> r[i].category == C
    ensures slot == Some(Main) ==> forall i :: 0 <= i < |r| ==> r[i].category != C
  {
    FilterSatisfies(active, (r: Recipe) => match slot case None => true case Some(Side) => r.category == C case Some(Main) => r.category != C);
    Filter(active, (r: Recipe) => match slot case None => true case Some(Side) => r.category == C case Some(Main) => r.category != C)
  }

  lemma SwapPoolMembers(active: seq<Recipe>, slot: Option<Slot>, r: Recipe)
    ensures r in SwapPool(active, slot) <==>
      r in active && (slot == Some(Side) ==> r.category == C) && (slot == Some(Main) ==> r.category != C)
  {
    FilterMembers(active, (r: Recipe) => match slot case None => true case Some(Side) => r.category == C case Some(Main) => r.category != C, r);
  }

  /** The plan after putting `dish` into one slot of one day. */
  function SwapDish(plans: seq<DayPlan>, dayIndex: nat, slot: Slot, dish: Recipe): (r: seq<DayPlan>)
    requires dayIndex < |plans|
    ensures |r| == |plans|
    ensures forall i :: 0 <= i < |r| && i != dayIndex ==> r[i] == plans[i]
    ensures r[dayIndex].date == plans[dayIndex].date
    ensures slot == Main ==> r[dayIndex].mainDish == Some(dish) && r[dayIndex].sideDish == plans[dayIndex].sideDish
    ensures slot == Side ==> r[dayIndex].sideDish == Some(dish) && r[dayIndex].mainDish == plans[dayIndex].mainDish
  {
    var day := plans[dayIndex];
    plans[dayIndex := if slot == Main then day.(mainDish := Some(dish)) else day.(sideDish := Some(dish))]
  }

  /** Swapping one slot back to the dish it held restores the plan. */
  lemma SwapBackRestores(plans: seq<DayPlan>, dayIndex: nat, slot: Slot, dish: Recipe)
    requires dayIndex < |plans|
    requires slot == Main ==> plans[dayIndex].mainDish.Some?
    requires slot == Side ==> plans[dayIndex].sideDish.Some?
    ensures var before := if slot == Main then plans[dayIndex].mainDish.value else plans[dayIndex].sideDish.value;
      SwapDish(SwapDish(plans, dayIndex, slot, dish), dayIndex, slot, before) == plans
  {
    var before := if slot == Main then plans[dayIndex].mainDish.value else plans[dayIndex].sideDish.value;
    var r := SwapDish(SwapDish(plans, dayIndex, slot, dish), dayIndex, slot, before);
    assert r[dayIndex] == plans[dayIndex];
  }

  datatype LoadOutcome = RedirectToManual | Shown

  class ShoppingListPage {
    var store: Store
    var plans: seq<DayPlan>
    var items: seq<ShoppingItem>
    var modalOpen: bool
    var editingDayIndex: Option<nat>
    var editingSlot: Option<Slot>

    /** The day being edited is one of the plan's days. */
    predicate Valid()
      reads this
    {
      editingDayIndex.Some? ==> editingDayIndex.value < |plans|
    }

    constructor(store: Store)
      ensures this.store == store && plans == [] && items == [] && !modalOpen
      ensures editingDayIndex == None && editingSlot == None
      ensures Valid()
    {
      this.store := store;
      plans := [];
      items := [];
      modalOpen := false;
      editingDayIndex := None;
      editingSlot := None;
    }

    /** The load effect: an empty saved plan sends the user to manual mode; otherwise the plan
        is shown with its list derived afresh. */
    method Load() returns (outcome: LoadOutcome)
      requires editingDayIndex == None
      modifies this
      ensures store == old(store) && editingDayIndex == None && editingSlot == old(editingSlot)
      ensures modalOpen == old(modalOpen)
      ensures Valid()
      ensures old(store.currentPlan) == [] ==> outcome == RedirectToManual && plans == old(plans) && items == old(items)
      ensures old(store.currentPlan) != [] ==>
        outcome == Shown && plans == store.currentPlan && items == ShoppingList(plans, store.settings)
    {
      var current := store.currentPlan;
      if |current| == 0 {
        return RedirectToManual;
      }
      plans := current;
      items := GenerateShoppingList(current, store.settings);
      outcome := Shown;
    }

    method ToggleCheck(name: string)
      modifies this
      ensures items == ToggleItemCheck(old(items), name)
      ensures plans == old(plans) && store == old(store) && modalOpen == old(modalOpen)
      ensures editingDayIndex == old(editingDayIndex) && editingSlot == old(editingSlot)
    {
      items := ToggleItemCheck(items, name);
    }

    method OpenSwapModal(dayIdx: nat, slot: Slot)
      requires dayIdx < |plans|
      modifies this
      ensures editingDayIndex == Some(dayIdx) && editingSlot == Some(slot) && modalOpen
      ensures plans == old(plans) && items == old(items) && store == old(store)
      ensures Valid()
    {
      editingDayIndex := Some(dayIdx);
      editingSlot := Some(slot);
      modalOpen := true;
    }

    /** `handleSwapDish`: with no day or slot being edited nothing happens; otherwise the slot
        takes the new dish, the plan is saved, and the list is derived again, unticked. */
    method HandleSwapDish(newDish: Recipe)
      requires Valid()
      modifies this, store
      ensures store == old(store) && Valid()
      ensures old(editingDayIndex).None? || old(editingSlot).None? ==> unchanged(this) && unchanged(store)
      ensures old(editingDayIndex).Some? && old(editingSlot).Some? ==>
        && plans == SwapDish(old(plans), old(editingDayIndex).value, old(editingSlot).value, newDish)
        && store.currentPlan == plans
        && store.recipes == old(store.recipes) && store.settings == old(store.settings)
        && items == ShoppingList(plans, store.settings)
        && (forall i :: 0 <= i < |items| ==> !items[i].checked)
        && !modalOpen
        && editingDayIndex == old(editingDayIndex) && editingSlot == old(editingSlot)
    {
      if editingDayIndex.None? || editingSlot.None? {
        return;
      }
      var idx := editingDayIndex.value;
      var newPlans := plans;
      var targetDay := newPlans[idx];
      if editingSlot.value == Main {
        targetDay := targetDay.(mainDish := Some(newDish));
      } else {
        targetDay := targetDay.(sideDish := Some(newDish));
      }
      newPlans := newPlans[idx := targetDay];
      plans := newPlans;
      store.SaveCurrentPlan(newPlans);
      items := GenerateShoppingList(newPlans, store.settings);
      modalOpen := false;
    }
  }
}
