/** `generateShoppingList` (services/storage.ts): walks the plan day by day, main dish before
    side dish, turns every dish into a sequence of contributions (the automatic chili for
    category A, then one per ingredient with an inferred quantity), drops the aromatics the
    settings hide, and merges contributions by trimmed name into an insertion-ordered map.

    The reference definition `ShoppingList` describes the result in closed form over the
    flattened contribution sequence; the method `GenerateShoppingList` is the map-mutating
    loop of the source, proved equal to it. */
module ShoppingAggregation {
  import opened Types
  import opened Strings
  import opened Sequences

  const SpicyName: string := "小米辣"
  /** Hidden when `showGarlicGinger` is off; matched against the untrimmed name. */
  const Aromatics: seq<string> := ["葱", "姜", "蒜", "大葱", "红葱头"]
  const MeatKeywords: seq<string> := ["肉", "鸡", "鸭", "鱼", "牛", "排骨", "虾"]
  const EggKeyword: string := "鸡蛋"
  const VegetableKeywords: seq<string> := ["冬瓜", "青瓜", "土豆", "茄子", "南瓜"]

  datatype Quantity = Quantity(amount: nat, unit: string)

  /** The quantity inferred from an ingredient name; the first matching class wins. */
  function InferQuantity(name: string, pc: PeopleCount): (q: Quantity)
    ensures q.amount > 0
  {
    if ContainsSome(name, MeatKeywords) then Quantity(if pc == ThreeToFour then 500 else 350, "g")
    else if Contains(name, EggKeyword) then Quantity(if pc == ThreeToFour then 4 else 2, "个")
    else if ContainsSome(name, VegetableKeywords) then Quantity(if pc == ThreeToFour then 600 else 400, "g")
    else Quantity(1, "份")
  }

  /** One call of the inner `addToMap`. */
  datatype Contribution = Contribution(name: string, amount: nat, unit: string, isSpicy: bool)

  function SpicyContribution(): Contribution {
    Contribution(SpicyName, 5, "g", true)
  }

  function IngredientContribution(ing: Ingredient, pc: PeopleCount): Contribution {
    var q := InferQuantity(ing.name, pc);
    Contribution(ing.name, q.amount, q.unit, false)
  }

  function IngredientContributions(ings: seq<Ingredient>, pc: PeopleCount): seq<Contribution> {
    seq(|ings|, i requires 0 <= i < |ings| => IngredientContribution(ings[i], pc))
  }

  predicate AddsSpicy(dish: Recipe, s: Settings) {
    dish.category == A && s.autoSpicyA
  }

  /** The chili (when it applies) comes before the dish's own ingredients. */
  function DishContributions(dish: Recipe, s: Settings): seq<Contribution> {
    (if AddsSpicy(dish, s) then [SpicyContribution()] else [])
    + IngredientContributions(dish.ingredients, s.peopleCount)
  }

  /** An empty slot contributes nothing. */
  function SlotContributions(dish: Option<Recipe>, s: Settings): seq<Contribution> {
    match dish
    case None => []
    case Some(d) => DishContributions(d, s)
  }

  function DayContributions(day: DayPlan, s: Settings): seq<Contribution> {
    SlotContributions(day.mainDish, s) + SlotContributions(day.sideDish, s)
  }

  /** Every contribution of a plan, in traversal order. */
  function PlanContributions(plans: seq<DayPlan>, s: Settings): seq<Contribution> {
    if plans == [] then []
    else PlanContributions(plans[..|plans| - 1], s) + DayContributions(plans[|plans| - 1], s)
  }

  /** The suppression rule of `addToMap`. */
  predicate Passes(c: Contribution, showGarlicGinger: bool) {
    showGarlicGinger || c.name !in Aromatics
  }

  /** The contributions that survive the suppression rule, in order. */
  function Kept(cs: seq<Contribution>, showGarlicGinger: bool): (r: seq<Contribution>)
  {
    if cs == [] then []
    else
      var last := cs[|cs| - 1];
      Kept(cs[..|cs| - 1], showGarlicGinger) + (if Passes(last, showGarlicGinger) then [last] else [])
  }

  /** The map key of a contribution. */
  function Key(c: Contribution): string {
    Trim(c.name)
  }

  /** The contributions merged under key k, in order. */
  function Matching(ks: seq<Contribution>, k: string): (r: seq<Contribution>)
  {
    if ks == [] then []
    else
      var last := ks[|ks| - 1];
      Matching(ks[..|ks| - 1], k) + (if Key(last) == k then [last] else [])
  }

  function Total(cs: seq<Contribution>): nat {
    if cs == [] then 0 else Total(cs[..|cs| - 1]) + cs[|cs| - 1].amount
  }

  /** The trace string `${amount}${unit}` of one contribution. */
  function Trace(c: Contribution): string {
    NatToString(c.amount) + c.unit
  }

  function Traces(cs: seq<Contribution>): seq<string> {
    seq(|cs|, i requires 0 <= i < |cs| => Trace(cs[i]))
  }

  /** The keys in the order they are first met. */
  function DistinctKeys(ks: seq<Contribution>): (r: seq<string>)
    ensures forall i, j :: 0 <= i < j < |r| ==> r[i] != r[j]
  {
    if ks == [] then []
    else
      var d := DistinctKeys(ks[..|ks| - 1]);
      var k := Key(ks[|ks| - 1]);
      if k in d then d else d + [k]
  }

  lemma {:induction false} KeptMembers(cs: seq<Contribution>, g: bool, c: Contribution)
    ensures c in Kept(cs, g) <==> c in cs && Passes(c, g)
  {
    if cs != [] {
      KeptMembers(cs[..|cs| - 1], g, c);
      assert cs == cs[..|cs| - 1] + [cs[|cs| - 1]];
    }
  }

  lemma {:induction false} KeptAllPass(cs: seq<Contribution>, g: bool)
    requires forall i :: 0 <= i < |cs| ==> Passes(cs[i], g)
    ensures Kept(cs, g) == cs
  {
    if cs != [] {
      KeptAllPass(cs[..|cs| - 1], g);
    }
  }

  lemma {:induction false} MatchingMembers(ks: seq<Contribution>, k: string, c: Contribution)
    ensures c in Matching(ks, k) <==> c in ks && Key(c) == k
  {
    if ks != [] {
      MatchingMembers(ks[..|ks| - 1], k, c);
      assert ks == ks[..|ks| - 1] + [ks[|ks| - 1]];
    }
  }

  /** A key is listed exactly when some contribution is merged under it. */
  lemma {:induction false} DistinctKeysMembers(ks: seq<Contribution>, k: string)
    ensures k in DistinctKeys(ks) <==> |Matching(ks, k)| > 0
  {
    if ks != [] {
      DistinctKeysMembers(ks[..|ks| - 1], k);
    }
  }

  /** The entry for key k: the summed amount, the unit and flag of the first contribution,
      one trace string per contribution, unchecked. */
  function ItemFor(ks: seq<Contribution>, k: string): ShoppingItem
    requires |Matching(ks, k)| > 0
  {
    var ms := Matching(ks, k);
    ShoppingItem(k, Total(ms), ms[0].unit, Traces(ms), false, ms[0].isSpicy)
  }

  /** The merged entries of a contribution sequence, in first-encounter order. */
  function Aggregate(ks: seq<Contribution>): (r: seq<ShoppingItem>)
    ensures |r| == |DistinctKeys(ks)|
    ensures forall i :: 0 <= i < |r| ==> r[i].name == DistinctKeys(ks)[i] && !r[i].checked
    ensures forall i, j :: 0 <= i < j < |r| ==> r[i].name != r[j].name
  {
    var d := DistinctKeys(ks);
    seq(|d|, i requires 0 <= i < |d| => DistinctKeysMembers(ks, d[i]); ItemFor(ks, d[i]))
  }

  /** What `generateShoppingList(plans, settings)` returns. */
  function ShoppingList(plans: seq<DayPlan>, s: Settings): (r: seq<ShoppingItem>)
    ensures forall i, j :: 0 <= i < j < |r| ==> r[i].name != r[j].name
    ensures forall i :: 0 <= i < |r| ==> !r[i].checked
  {
    Aggregate(Kept(PlanContributions(plans, s), s.showGarlicGinger))
  }

  // ---------------------------------------------------------------------------------------
  // The imperative aggregation

  /** The map and its insertion order hold exactly the merged entries of `ks`. */
  ghost predicate Represents(m: map<string, ShoppingItem>, order: seq<string>, ks: seq<Contribution>) {
    && order == DistinctKeys(ks)
    && (forall k :: k in m <==> k in order)
    && (forall k :: k in m ==> |Matching(ks, k)| > 0 && m[k] == ItemFor(ks, k))
  }

  lemma KeptAppend(cs: seq<Contribution>, c: Contribution, g: bool)
    ensures Kept(cs + [c], g) == Kept(cs, g) + (if Passes(c, g) then [c] else [])
  {
    assert (cs + [c])[..|cs|] == cs;
  }

  /** One more contribution: it joins the group of its own key and no other. */
  lemma MatchingStep(ks: seq<Contribution>, c: Contribution, k: string)
    ensures Matching(ks + [c], k) == Matching(ks, k) + (if Key(c) == k then [c] else [])
  {
    assert (ks + [c])[..|ks|] == ks;
  }

  /** One more contribution: its key joins the end of the order when it is new. */
  lemma DistinctKeysStep(ks: seq<Contribution>, c: Contribution)
    ensures DistinctKeys(ks + [c]) == if Key(c) in DistinctKeys(ks) then DistinctKeys(ks) else DistinctKeys(ks) + [Key(c)]
  {
    assert (ks + [c])[..|ks|] == ks;
  }

  lemma TotalStep(ms: seq<Contribution>, c: Contribution)
    ensures Total(ms + [c]) == Total(ms) + c.amount
  {
    assert (ms + [c])[..|ms|] == ms;
  }

  lemma TracesStep(ms: seq<Contribution>, c: Contribution)
    ensures Traces(ms + [c]) == Traces(ms) + [Trace(c)]
  {
  }

  /** A contribution leaves the entries of the other keys as they were. */
  lemma OtherEntry(ks: seq<Contribution>, c: Contribution, k: string)
    requires k != Key(c) && |Matching(ks, k)| > 0
    ensures |Matching(ks + [c], k)| > 0 && ItemFor(ks + [c], k) == ItemFor(ks, k)
  {
    MatchingStep(ks, c, k);
    assert Matching(ks + [c], k) == Matching(ks, k);
  }

  /** A contribution under a listed key adds its amount and its trace to that entry. */
  lemma GrownEntry(ks: seq<Contribution>, c: Contribution)
    requires |Matching(ks, Key(c))| > 0
    ensures var e := ItemFor(ks, Key(c));
      ItemFor(ks + [c], Key(c)) == e.(amount := e.amount + c.amount, originalText := e.originalText + [Trace(c)])
  {
    var ms := Matching(ks, Key(c));
    MatchingStep(ks, c, Key(c));
    TotalStep(ms, c);
    TracesStep(ms, c);
    assert (ms + [c])[0] == ms[0];
  }

  /** A contribution under a new key starts an entry of its own. */
  lemma NewEntry(ks: seq<Contribution>, c: Contribution)
    requires |Matching(ks, Key(c))| == 0
    ensures |Matching(ks + [c], Key(c))| > 0
    ensures ItemFor(ks + [c], Key(c)) == ShoppingItem(Key(c), c.amount, c.unit, [Trace(c)], false, c.isSpicy)
  {
    MatchingStep(ks, c, Key(c));
    assert Matching(ks + [c], Key(c)) == [c];
    TotalStep([], c);
    TracesStep([], c);
  }

  /** Merging a contribution whose key already has an entry. */
  lemma MergeExisting(m: map<string, ShoppingItem>, order: seq<string>, ks: seq<Contribution>, c: Contribution)
    requires Represents(m, order, ks) && Key(c) in m
    ensures var e := m[Key(c)];
      Represents(m[Key(c) := e.(amount := e.amount + c.amount, originalText := e.originalText + [Trace(c)])],
                 order, ks + [c])
  {
    var key := Key(c);
    var e := m[key];
    var m' := m[key := e.(amount := e.amount + c.amount, originalText := e.originalText + [Trace(c)])];
    DistinctKeysMembers(ks, key);
    DistinctKeysStep(ks, c);
    GrownEntry(ks, c);
    forall k | k in m'
      ensures |Matching(ks + [c], k)| > 0 && m'[k] == ItemFor(ks + [c], k)
    {
      if k != key {
        OtherEntry(ks, c, k);
      }
    }
  }

  /** Merging a contribution whose key is new: the entry goes to the end of the order. */
  lemma MergeNew(m: map<string, ShoppingItem>, order: seq<string>, ks: seq<Contribution>, c: Contribution)
    requires Represents(m, order, ks) && Key(c) !in m
    ensures Represents(m[Key(c) := ShoppingItem(Key(c), c.amount, c.unit, [Trace(c)], false, c.isSpicy)],
                       order + [Key(c)], ks + [c])
  {
    var key := Key(c);
    var m' := m[key := ShoppingItem(key, c.amount, c.unit, [Trace(c)], false, c.isSpicy)];
    DistinctKeysMembers(ks, key);
    DistinctKeysStep(ks, c);
    NewEntry(ks, c);
    forall k | k in m'
      ensures |Matching(ks + [c], k)| > 0 && m'[k] == ItemFor(ks + [c], k)
    {
      if k != key {
        OtherEntry(ks, c, k);
      }
    }
  }

  /** `addToMap(c)`: a hidden aromatic is skipped; otherwise the entry under the trimmed name
      is extended, or created at the end of the insertion order. */
  method AddToMap(m: map<string, ShoppingItem>, order: seq<string>, c: Contribution, showGarlicGinger: bool,
                  ghost done: seq<Contribution>)
    returns (m': map<string, ShoppingItem>, order': seq<string>)
    requires Represents(m, order, Kept(done, showGarlicGinger))
    ensures Represents(m', order', Kept(done + [c], showGarlicGinger))
  {
    KeptAppend(done, c, showGarlicGinger);
    if !Passes(c, showGarlicGinger) {
      m', order' := m, order;
      assert Kept(done, showGarlicGinger) == Kept(done+[c], showGarlicGinger);
      return;
    }
    assert Kept(done + [c], showGarlicGinger) == Kept(done, showGarlicGinger) + [c];
    var key := Trim(c.name);
    if key in m {
      MergeExisting(m, order, Kept(done, showGarlicGinger), c);
      var existing := m[key];
      m' := m[key := existing.(amount := existing.amount + c.amount,
                               originalText := existing.originalText + [Trace(c)])];
      order' := order;
    } else {
      MergeNew(m, order, Kept(done, showGarlicGinger), c);
      m' := m[key := ShoppingItem(key, c.amount, c.unit, [Trace(c)], false, c.isSpicy)];
      order' := order + [key];
    }
  }

  lemma PrefixStep(done: seq<Contribution>, all: seq<Contribution>, k: nat)
    requires k < |all|
    ensures done + all[..k] + [all[k]] == done + all[..k + 1]
  {
    assert all[..k + 1] == all[..k] + [all[k]];
  }

  /** The `dish.ingredients.forEach` loop: one contribution per ingredient, in order. */
  method AddIngredients(m: map<string, ShoppingItem>, order: seq<string>, ings: seq<Ingredient>, s: Settings,
                        ghost done: seq<Contribution>)
    returns (m': map<string, ShoppingItem>, order': seq<string>)
    requires Represents(m, order, Kept(done, s.showGarlicGinger))
    ensures Represents(m', order', Kept(done + IngredientContributions(ings, s.peopleCount), s.showGarlicGinger))
  {
    m', order' := m, order;
    ghost var all := IngredientContributions(ings, s.peopleCount);
    assert done + all[..0] == done;
    for k := 0 to |ings|
      invariant Represents(m', order', Kept(done + all[..k], s.showGarlicGinger))
    {
      var name := ings[k].name;
      var q := InferQuantity(name, s.peopleCount);
      var c := Contribution(name, q.amount, q.unit, false);
      assert c == all[k];
      ghost var before := done + all[..k];
      m', order' := AddToMap(m', order', c, s.showGarlicGinger, before);
      PrefixStep(done, all, k);
    }
    assert all[..|ings|] == all;
  }

  /** One dish: the chili first when the dish is category A and the setting is on, then the
      dish's own ingredients. */
  method AddDish(m: map<string, ShoppingItem>, order: seq<string>, dish: Recipe, s: Settings,
                 ghost done: seq<Contribution>)
    returns (m': map<string, ShoppingItem>, order': seq<string>)
    requires Represents(m, order, Kept(done, s.showGarlicGinger))
    ensures Represents(m', order', Kept(done + DishContributions(dish, s), s.showGarlicGinger))
  {
    if dish.category == A && s.autoSpicyA {
      ghost var chili := [SpicyContribution()];
      ghost var own := IngredientContributions(dish.ingredients, s.peopleCount);
      m', order' := AddToMap(m, order, SpicyContribution(), s.showGarlicGinger, done);
      m', order' := AddIngredients(m', order', dish.ingredients, s, done + chili);
      assert DishContributions(dish, s) == chili + own;
      AppendAssoc(done, chili, own);
    } else {
      m', order' := AddIngredients(m, order, dish.ingredients, s, done);
      assert DishContributions(dish, s) == IngredientContributions(dish.ingredients, s.peopleCount);
    }
  }

  method AddSlot(m: map<string, ShoppingItem>, order: seq<string>, dish: Option<Recipe>, s: Settings,
                 ghost done: seq<Contribution>)
    returns (m': map<string, ShoppingItem>, order': seq<string>)
    requires Represents(m, order, Kept(done, s.showGarlicGinger))
    ensures Represents(m', order', Kept(done + SlotContributions(dish, s), s.showGarlicGinger))
  {
    match dish
    case None =>
      assert done + [] == done;
      m', order' := m, order;
    case Some(d) =>
      m', order' := AddDish(m, order, d, s, done);
  }

  lemma PlanStep(plans: seq<DayPlan>, s: Settings, i: nat)
    requires i < |plans|
    ensures PlanContributions(plans[..i], s) + SlotContributions(plans[i].mainDish, s)
              + SlotContributions(plans[i].sideDish, s)
            == PlanContributions(plans[..i + 1], s)
  {
    assert plans[..i + 1][..i] == plans[..i];
  }

  /** `generateShoppingList`: the plan walked day by day, main dish then side dish, into an
      insertion-ordered map whose values are returned in insertion order. */
  method GenerateShoppingList(plans: seq<DayPlan>, s: Settings) returns (items: seq<ShoppingItem>)
    ensures items == ShoppingList(plans, s)
  {
    var m: map<string, ShoppingItem> := map[];
    var order: seq<string> := [];
    for i := 0 to |plans|
      invariant Represents(m, order, Kept(PlanContributions(plans[..i], s), s.showGarlicGinger))
    {
      ghost var done := PlanContributions(plans[..i], s);
      var day := plans[i];
      m, order := AddSlot(m, order, day.mainDish, s, done);
      m, order := AddSlot(m, order, day.sideDish, s, done + SlotContributions(day.mainDish, s));
      PlanStep(plans, s, i);
    }
    assert plans[..|plans|] == plans;
    items := seq(|order|, i requires 0 <= i < |order| && order[i] in m => m[order[i]]);
    ValuesInOrder(m, order, Kept(PlanContributions(plans, s), s.showGarlicGinger), items);
  }

  /** The map's values read in insertion order are the merged entries. */
  lemma ValuesInOrder(m: map<string, ShoppingItem>, order: seq<string>, ks: seq<Contribution>,
                      items: seq<ShoppingItem>)
    requires Represents(m, order, ks)
    requires |items| == |order| && forall i :: 0 <= i < |order| ==> order[i] in m && items[i] == m[order[i]]
    ensures items == Aggregate(ks)
  {
  }

  // ---------------------------------------------------------------------------------------
  // Properties of the list

  /** p is the position of the first contribution merged under key k. */
  ghost predicate IsFirst(ks: seq<Contribution>, k: string, p: int) {
    0 <= p < |ks| && Key(ks[p]) == k && forall q :: 0 <= q < p ==> Key(ks[q]) != k
  }

  /** The list holds an entry for a name exactly when some surviving contribution trims to it. */
  lemma NamesAreTrimmedKeys(ks: seq<Contribution>, k: string)
    ensures (exists i :: 0 <= i < |Aggregate(ks)| && Aggregate(ks)[i].name == k)
        <==> (exists c :: c in ks && Key(c) == k)
  {
    var r := Aggregate(ks);
    var d := DistinctKeys(ks);
    DistinctKeysMembers(ks, k);
    if exists c :: c in ks && Key(c) == k {
      var c :| c in ks && Key(c) == k;
      MatchingMembers(ks, k, c);
      var i :| 0 <= i < |d| && d[i] == k;
      assert r[i].name == k;
    }
    if exists i :: 0 <= i < |r| && r[i].name == k {
      var i :| 0 <= i < |r| && r[i].name == k;
      assert d[i] == k;
      var c := Matching(ks, k)[0];
      MatchingMembers(ks, k, c);
    }
  }

  /** The first contribution under a key is the first element of its merged group. */
  lemma {:induction false} FirstOfGroup(ks: seq<Contribution>, k: string, p: int)
    requires IsFirst(ks, k, p)
    ensures |Matching(ks, k)| > 0 && Matching(ks, k)[0] == ks[p]
  {
    var init := ks[..|ks| - 1];
    if p < |ks| - 1 {
      assert IsFirst(init, k, p);
      FirstOfGroup(init, k, p);
    } else {
      forall c | c in init ensures Key(c) != k {
        var q :| 0 <= q < |init| && init[q] == c;
        assert ks[q] == c;
      }
      if |Matching(init, k)| > 0 {
        MatchingMembers(init, k, Matching(init, k)[0]);
      }
    }
  }

  lemma {:induction false} FirstExists(ks: seq<Contribution>, k: string) returns (p: int)
    requires |Matching(ks, k)| > 0
    ensures IsFirst(ks, k, p)
  {
    var init := ks[..|ks| - 1];
    if |Matching(init, k)| > 0 {
      p := FirstExists(init, k);
    } else {
      p := |ks| - 1;
      forall q | 0 <= q < p ensures Key(ks[q]) != k {
        MatchingMembers(init, k, init[q]);
      }
    }
  }

  /** Each entry sums all contributions under its name, traces each of them in order as
      `${amount}${unit}`, and takes its unit and spicy flag from the first one. */
  lemma EntryIsMerge(ks: seq<Contribution>, i: int)
    requires 0 <= i < |Aggregate(ks)|
    ensures var e := Aggregate(ks)[i];
      var ms := Matching(ks, e.name);
      && e.amount == Total(ms)
      && |e.originalText| == |ms|
      && (forall j :: 0 <= j < |ms| ==> e.originalText[j] == NatToString(ms[j].amount) + ms[j].unit)
      && !e.checked
      && exists p :: IsFirst(ks, e.name, p) && e.unit == ks[p].unit && e.isSpicy == ks[p].isSpicy
  {
    var e := Aggregate(ks)[i];
    DistinctKeysMembers(ks, e.name);
    var p := FirstExists(ks, e.name);
    FirstOfGroup(ks, e.name, p);
  }

  /** A key already met before the last contribution was first met there too. */
  lemma EarlierKeyFirstInPrefix(ks: seq<Contribution>, i: int, p: int)
    requires |ks| > 0 && 0 <= i < |DistinctKeys(ks[..|ks| - 1])|
    requires IsFirst(ks, DistinctKeys(ks)[i], p)
    ensures DistinctKeys(ks)[i] == DistinctKeys(ks[..|ks| - 1])[i]
    ensures p < |ks| - 1 && IsFirst(ks[..|ks| - 1], DistinctKeys(ks)[i], p)
  {
    var init := ks[..|ks| - 1];
    var k := DistinctKeys(init)[i];
    DistinctKeysMembers(init, k);
    var p' := FirstExists(init, k);
    assert IsFirst(ks, k, p');
  }

  /** A key that is new at the last contribution is first met there. */
  lemma NewKeyFirstAtEnd(ks: seq<Contribution>, q: int)
    requires |ks| > 0 && |DistinctKeys(ks[..|ks| - 1])| < |DistinctKeys(ks)|
    requires IsFirst(ks, DistinctKeys(ks)[|DistinctKeys(ks[..|ks| - 1])|], q)
    ensures q == |ks| - 1
  {
    var init := ks[..|ks| - 1];
    var k := Key(ks[|ks| - 1]);
    assert DistinctKeys(ks)[|DistinctKeys(init)|] == k;
    DistinctKeysMembers(init, k);
    if q < |ks| - 1 {
      MatchingMembers(init, k, init[q]);
    }
  }

  /** Entries appear in the order in which their names are first met. */
  lemma {:induction false} FirstEncounterOrder(ks: seq<Contribution>, i: int, j: int, p: int, q: int)
    requires 0 <= i < j < |DistinctKeys(ks)|
    requires IsFirst(ks, DistinctKeys(ks)[i], p) && IsFirst(ks, DistinctKeys(ks)[j], q)
    ensures p < q
  {
    var init := ks[..|ks| - 1];
    var d := DistinctKeys(init);
    assert |DistinctKeys(ks)| <= |d| + 1;
    EarlierKeyFirstInPrefix(ks, i, p);
    if j < |d| {
      EarlierKeyFirstInPrefix(ks, j, q);
      FirstEncounterOrder(init, i, j, p, q);
    } else {
      NewKeyFirstAtEnd(ks, q);
    }
  }

  // ---------------------------------------------------------------------------------------
  // Where contributions come from, and the suppression rule

  /** Some entry of the list carries name n. */
  predicate Lists(items: seq<ShoppingItem>, n: string) {
    exists i :: 0 <= i < |items| && items[i].name == n
  }

  /** The ingredient names a slot lists, untrimmed. */
  function SlotNames(dish: Option<Recipe>): set<string> {
    match dish
    case None => {}
    case Some(d) => set ing | ing in d.ingredients :: ing.name
  }

  /** Every ingredient name of every dish of the plan. */
  function PlanNames(plans: seq<DayPlan>): set<string> {
    if plans == [] then {}
    else
      var day := plans[|plans| - 1];
      PlanNames(plans[..|plans| - 1]) + SlotNames(day.mainDish) + SlotNames(day.sideDish)
  }

  lemma SlotOrigin(dish: Option<Recipe>, s: Settings, c: Contribution)
    requires c in SlotContributions(dish, s)
    ensures c == SpicyContribution() || (c.name in SlotNames(dish) && !c.isSpicy)
  {
    var d := dish.value;
    if c != SpicyContribution() {
      var ics := IngredientContributions(d.ingredients, s.peopleCount);
      assert c in ics;
      var j :| 0 <= j < |ics| && ics[j] == c;
      assert d.ingredients[j] in d.ingredients;
    }
  }

  /** Each contribution of a plan is the automatic chili or stems from a listed ingredient. */
  lemma {:induction false} ContributionOrigin(plans: seq<DayPlan>, s: Settings, c: Contribution)
    requires c in PlanContributions(plans, s)
    ensures c == SpicyContribution() || (c.name in PlanNames(plans) && !c.isSpicy)
  {
    var init := plans[..|plans| - 1];
    var day := plans[|plans| - 1];
    if c in PlanContributions(init, s) {
      ContributionOrigin(init, s, c);
    } else if c in SlotContributions(day.mainDish, s) {
      SlotOrigin(day.mainDish, s, c);
    } else {
      SlotOrigin(day.sideDish, s, c);
    }
  }

  lemma SlotNameContributes(dish: Option<Recipe>, s: Settings, n: string)
    requires n in SlotNames(dish)
    ensures exists c :: c in SlotContributions(dish, s) && c.name == n
  {
    var d := dish.value;
    var ing :| ing in d.ingredients && ing.name == n;
    var j :| 0 <= j < |d.ingredients| && d.ingredients[j] == ing;
    var ics := IngredientContributions(d.ingredients, s.peopleCount);
    assert ics[j] in DishContributions(d, s);
  }

  /** Each listed ingredient name contributes to the plan. */
  lemma {:induction false} NameContributes(plans: seq<DayPlan>, s: Settings, n: string)
    requires n in PlanNames(plans)
    ensures exists c :: c in PlanContributions(plans, s) && c.name == n
  {
    var init := plans[..|plans| - 1];
    var day := plans[|plans| - 1];
    if n in PlanNames(init) {
      NameContributes(init, s, n);
    } else if n in SlotNames(day.mainDish) {
      SlotNameContributes(day.mainDish, s, n);
    } else {
      SlotNameContributes(day.sideDish, s, n);
    }
  }

  lemma SpicyKey()
    ensures Key(SpicyContribution()) == SpicyName
  {
    TrimNoWhitespace(SpicyName);
  }

  /** Apart from the chili, a name is listed exactly when some ingredient of the plan trims to it
      and, with garlic and ginger hidden, is not itself written as one of the aromatics. The
      suppression compares the untrimmed name, so a padded aromatic such as " 葱" still lists. */
  lemma ListedNames(plans: seq<DayPlan>, s: Settings, n: string)
    requires n != SpicyName
    ensures Lists(ShoppingList(plans, s), n)
        <==> exists m :: m in PlanNames(plans) && (s.showGarlicGinger || m !in Aromatics) && Trim(m) == n
  {
    var g := s.showGarlicGinger;
    var pcs := PlanContributions(plans, s);
    var ks := Kept(pcs, g);
    NamesAreTrimmedKeys(ks, n);
    SpicyKey();
    if Lists(ShoppingList(plans, s), n) {
      var c :| c in ks && Key(c) == n;
      KeptMembers(pcs, g, c);
      ContributionOrigin(plans, s, c);
      assert c.name in PlanNames(plans) && (g || c.name !in Aromatics) && Trim(c.name) == n;
    }
    if exists m :: m in PlanNames(plans) && (g || m !in Aromatics) && Trim(m) == n {
      var m :| m in PlanNames(plans) && (g || m !in Aromatics) && Trim(m) == n;
      NameContributes(plans, s, m);
      var c :| c in pcs && c.name == m;
      KeptMembers(pcs, g, c);
      assert c in ks && Key(c) == n;
    }
  }

  /** With garlic and ginger hidden and ingredient names written without surrounding blanks,
      none of the aromatics is listed. */
  lemma HiddenAromaticsNeverListed(plans: seq<DayPlan>, s: Settings, n: string)
    requires !s.showGarlicGinger && n in Aromatics
    requires forall m :: m in PlanNames(plans) ==> NoWhitespace(m)
    ensures !Lists(ShoppingList(plans, s), n)
  {
    assert n != SpicyName;
    ListedNames(plans, s, n);
    forall m | m in PlanNames(plans) && Trim(m) == n ensures m in Aromatics {
      TrimNoWhitespace(m);
    }
  }

  // ---------------------------------------------------------------------------------------
  // The automatic chili

  /** The number of category A dishes the plan holds. */
  function CategoryADishes(plans: seq<DayPlan>): nat {
    if plans == [] then 0
    else
      var day := plans[|plans| - 1];
      CategoryADishes(plans[..|plans| - 1]) + SlotIsA(day.mainDish) + SlotIsA(day.sideDish)
  }

  function SlotIsA(dish: Option<Recipe>): nat {
    if dish.Some? && dish.value.category == A then 1 else 0
  }

  lemma SlotChili(dish: Option<Recipe>, s: Settings)
    ensures multiset(SlotContributions(dish, s))[SpicyContribution()]
         == if s.autoSpicyA then SlotIsA(dish) else 0
  {
    if dish.Some? {
      var d := dish.value;
      var ics := IngredientContributions(d.ingredients, s.peopleCount);
      assert SpicyContribution() !in ics;
      if AddsSpicy(d, s) {
        assert multiset(DishContributions(d, s)) == multiset{SpicyContribution()} + multiset(ics);
      }
    }
  }

  /** With `autoSpicyA` on, the chili is added once per category A dish, and never otherwise. */
  lemma {:induction false} ChiliPerCategoryADish(plans: seq<DayPlan>, s: Settings)
    ensures multiset(PlanContributions(plans, s))[SpicyContribution()]
         == if s.autoSpicyA then CategoryADishes(plans) else 0
  {
    if plans != [] {
      var init := plans[..|plans| - 1];
      var day := plans[|plans| - 1];
      ChiliPerCategoryADish(init, s);
      SlotChili(day.mainDish, s);
      SlotChili(day.sideDish, s);
      assert multiset(PlanContributions(plans, s))
          == multiset(PlanContributions(init, s)) + multiset(SlotContributions(day.mainDish, s))
             + multiset(SlotContributions(day.sideDish, s));
    }
  }

  // ---------------------------------------------------------------------------------------
  // Quantities

  /** The larger household always buys more of a scaled ingredient, in the same unit; the
      fallback portion does not scale. */
  lemma LargerHouseholdBuysMore(name: string)
    ensures InferQuantity(name, ThreeToFour).unit == InferQuantity(name, OneToTwo).unit
    ensures InferQuantity(name, OneToTwo).unit == "份"
        ==> InferQuantity(name, ThreeToFour).amount == InferQuantity(name, OneToTwo).amount == 1
    ensures InferQuantity(name, OneToTwo).unit != "份"
        ==> InferQuantity(name, ThreeToFour).amount > InferQuantity(name, OneToTwo).amount
  {
  }

  /** Every name containing "鸡蛋" also contains "鸡", so it takes the meat quantity. */
  lemma EggNamesTakeMeatQuantity(name: string, pc: PeopleCount)
    requires Contains(name, EggKeyword)
    ensures InferQuantity(name, pc) == Quantity(if pc == ThreeToFour then 500 else 350, "g")
  {
    ContainsPrefixOfKeyword(name, EggKeyword, "鸡");
    assert MeatKeywords[1] == "鸡";
  }

  /** Consequently the egg quantity is never inferred: no name yields the unit "个". */
  lemma EggQuantityUnreachable(name: string, pc: PeopleCount)
    ensures InferQuantity(name, pc).unit != "个"
  {
    if Contains(name, EggKeyword) {
      EggNamesTakeMeatQuantity(name, pc);
    }
  }

  /** The quantity rule as it acts: meat names take 350 g for one or two people and 500 g for
      three or four; other names with a vegetable keyword 400 g or 600 g; anything else one
      portion. */
  lemma QuantityByClass(name: string, pc: PeopleCount)
    ensures ContainsSome(name, MeatKeywords)
        ==> InferQuantity(name, pc) == Quantity(if pc == ThreeToFour then 500 else 350, "g")
    ensures !ContainsSome(name, MeatKeywords) && ContainsSome(name, VegetableKeywords)
        ==> InferQuantity(name, pc) == Quantity(if pc == ThreeToFour then 600 else 400, "g")
    ensures !ContainsSome(name, MeatKeywords) && !ContainsSome(name, VegetableKeywords)
        ==> InferQuantity(name, pc) == Quantity(1, "份")
  {
    if Contains(name, EggKeyword) {
      EggNamesTakeMeatQuantity(name, pc);
    }
  }

  // ---------------------------------------------------------------------------------------
  // Day order

  lemma {:induction false} PlanContributionsAppend(p1: seq<DayPlan>, p2: seq<DayPlan>, s: Settings)
    ensures PlanContributions(p1 + p2, s) == PlanContributions(p1, s) + PlanContributions(p2, s)
  {
    if p2 != [] {
      var init := p2[..|p2| - 1];
      assert (p1 + p2)[..|p1 + p2| - 1] == p1 + init;
      PlanContributionsAppend(p1, init, s);
    } else {
      assert p1 + p2 == p1;
    }
  }

  lemma {:induction false} KeptConcat(a: seq<Contribution>, b: seq<Contribution>, g: bool)
    ensures Kept(a + b, g) == Kept(a, g) + Kept(b, g)
  {
    if b != [] {
      assert (a + b)[..|a + b| - 1] == a + b[..|b| - 1];
      KeptConcat(a, b[..|b| - 1], g);
    } else {
      assert a + b == a;
    }
  }

  lemma {:induction false} MatchingConcat(a: seq<Contribution>, b: seq<Contribution>, k: string)
    ensures Matching(a + b, k) == Matching(a, k) + Matching(b, k)
  {
    if b != [] {
      assert (a + b)[..|a + b| - 1] == a + b[..|b| - 1];
      MatchingConcat(a, b[..|b| - 1], k);
    } else {
      assert a + b == a;
    }
  }

  lemma {:induction false} TotalConcat(a: seq<Contribution>, b: seq<Contribution>)
    ensures Total(a + b) == Total(a) + Total(b)
  {
    if b != [] {
      assert (a + b)[..|a + b| - 1] == a + b[..|b| - 1];
      TotalConcat(a, b[..|b| - 1]);
    } else {
      assert a + b == a;
    }
  }

  /** The amount merged under a name, and whether it is listed at all, do not depend on the
      order of the days. */
  lemma DayOrderKeepsTotals(p1: seq<DayPlan>, p2: seq<DayPlan>, s: Settings, k: string)
    ensures var one := Kept(PlanContributions(p1 + p2, s), s.showGarlicGinger);
      var two := Kept(PlanContributions(p2 + p1, s), s.showGarlicGinger);
      && Total(Matching(one, k)) == Total(Matching(two, k))
      && (Lists(Aggregate(one), k) <==> Lists(Aggregate(two), k))
    ensures Lists(ShoppingList(p1 + p2, s), k) <==> Lists(ShoppingList(p2 + p1, s), k)
  {
    var g := s.showGarlicGinger;
    var a := Kept(PlanContributions(p1, s), g);
    var b := Kept(PlanContributions(p2, s), g);
    PlanContributionsAppend(p1, p2, s);
    PlanContributionsAppend(p2, p1, s);
    KeptConcat(PlanContributions(p1, s), PlanContributions(p2, s), g);
    KeptConcat(PlanContributions(p2, s), PlanContributions(p1, s), g);
    MatchingConcat(a, b, k);
    MatchingConcat(b, a, k);
    TotalConcat(Matching(a, k), Matching(b, k));
    TotalConcat(Matching(b, k), Matching(a, k));
    DistinctKeysMembers(a + b, k);
    DistinctKeysMembers(b + a, k);
    ListsIsKey(a + b, k);
    ListsIsKey(b + a, k);
  }

  /** An entry listed after swapping the two blocks of days carries the same amount. */
  lemma DayOrderKeepsAmounts(p1: seq<DayPlan>, p2: seq<DayPlan>, s: Settings, i: int, j: int)
    requires 0 <= i < |ShoppingList(p1 + p2, s)| && 0 <= j < |ShoppingList(p2 + p1, s)|
    requires ShoppingList(p1 + p2, s)[i].name == ShoppingList(p2 + p1, s)[j].name
    ensures ShoppingList(p1 + p2, s)[i].amount == ShoppingList(p2 + p1, s)[j].amount
  {
    var one := Kept(PlanContributions(p1 + p2, s), s.showGarlicGinger);
    var two := Kept(PlanContributions(p2 + p1, s), s.showGarlicGinger);
    EntryIsMerge(one, i);
    EntryIsMerge(two, j);
    DayOrderKeepsTotals(p1, p2, s, ShoppingList(p1 + p2, s)[i].name);
  }

  lemma ListsIsKey(ks: seq<Contribution>, k: string)
    ensures Lists(Aggregate(ks), k) <==> k in DistinctKeys(ks)
  {
    var r := Aggregate(ks);
    if k in DistinctKeys(ks) {
      var i :| 0 <= i < |DistinctKeys(ks)| && DistinctKeys(ks)[i] == k;
      assert r[i].name == k;
    }
  }
}
