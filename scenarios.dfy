/** Concrete facts about the seed catalog and the shopping lists it yields under the default
    settings. */
module Scenarios {
  import opened Types
  import opened Strings
  import opened Sequences
  import opened Constants
  import opened Storage
  import opened ShoppingAggregation

  /** Every record of a group is active and of the group's category. */
  predicate Uniform(rs: seq<Recipe>, cat: Category) {
    forall i :: 0 <= i < |rs| ==> rs[i].category == cat && !rs[i].deleted
  }

  lemma SeedGroupA()
    ensures Uniform(SeedsA, A) && |SeedsA| == 9
  {
  }

  lemma SeedGroupB()
    ensures Uniform(SeedsB, B) && |SeedsB| == 11
  {
  }

  lemma SeedGroupC()
    ensures Uniform(SeedsC, C) && |SeedsC| == 8
  {
  }

  /** Every seed record is active: nine A dishes, then eleven B dishes, then eight C dishes. */
  lemma SeedCatalogCounts()
    ensures ActiveRecipes(InitialRecipes) == InitialRecipes
    ensures |OfCategory(InitialRecipes, A)| == 9
    ensures |OfCategory(InitialRecipes, B)| == 11
    ensures |OfCategory(InitialRecipes, C)| == 8
    ensures |InitialRecipes| == 28
  {
    var a, b, c := SeedsA, SeedsB, SeedsC;
    SeedGroupA();
    SeedGroupB();
    SeedGroupC();
    var rs := a + b + c;
    assert forall i :: 0 <= i < |rs| ==> IsActive(rs[i]);
    FilterAll(rs, IsActive);
    CategoryCount(a, b, c, A);
    CategoryCount(a, b, c, B);
    CategoryCount(a, b, c, C);
  }

  lemma CategoryCount(a: seq<Recipe>, b: seq<Recipe>, c: seq<Recipe>, cat: Category)
    requires Uniform(a, A) && Uniform(b, B) && Uniform(c, C)
    ensures |OfCategory(a + b + c, cat)| == if cat == A then |a| else if cat == B then |b| else |c|
  {
    var p := (x: Recipe) => x.category == cat;
    FilterConcat(a + b, c, p);
    FilterConcat(a, b, p);
    if cat == A { FilterAll(a, p); } else { FilterNone(a, p); }
    if cat == B { FilterAll(b, p); } else { FilterNone(b, p); }
    if cat == C { FilterAll(c, p); } else { FilterNone(c, p); }
  }

  lemma NoMeatIn(name: string)
    requires forall k :: k in MeatKeywords ==> k[0] !in name
    ensures !ContainsSome(name, MeatKeywords)
  {
    forall i | 0 <= i < |MeatKeywords| ensures !Contains(name, MeatKeywords[i]) {
      FirstCharAbsent(name, MeatKeywords[i]);
    }
  }

  lemma NoVegetableIn(name: string)
    requires forall k :: k in VegetableKeywords ==> k[0] !in name
    ensures !ContainsSome(name, VegetableKeywords)
  {
    forall i | 0 <= i < |VegetableKeywords| ensures !Contains(name, VegetableKeywords[i]) {
      FirstCharAbsent(name, VegetableKeywords[i]);
    }
  }

  lemma QuantityWinterMelon()
    ensures InferQuantity("冬瓜", OneToTwo) == Quantity(400, "g")
  {
    NoMeatIn("冬瓜");
    FirstCharAbsent("冬瓜", EggKeyword);
    assert Contains("冬瓜", VegetableKeywords[0]);
  }

  lemma QuantityPorkBelly()
    ensures InferQuantity("五花肉", OneToTwo) == Quantity(350, "g")
  {
    assert Contains("五花肉", MeatKeywords[0]) by {
      assert "五花肉"[1..][1..] == "肉";
      assert Contains("肉", "肉");
    }
  }

  /** 小米辣 and 可乐 match no keyword, so each takes one portion. */
  lemma QuantityPortion(name: string)
    requires name == "小米辣" || name == "可乐"
    ensures InferQuantity(name, OneToTwo) == Quantity(1, "份")
  {
    NoMeatIn(name);
    FirstCharAbsent(name, EggKeyword);
    NoVegetableIn(name);
  }

  lemma QuantityChickenWings()
    ensures InferQuantity("鸡翅", OneToTwo) == Quantity(350, "g")
  {
    assert Contains("鸡翅", MeatKeywords[1]);
  }

  /** A one-day plan with a main dish and no side dish contributes what that dish does. */
  lemma OneDishPlan(today: string, d: Recipe, s: Settings)
    ensures PlanContributions([DayPlan(today, Some(d), None)], s) == DishContributions(d, s)
  {
    var plans := [DayPlan(today, Some(d), None)];
    assert plans[..0] == [];
    assert [] + (DishContributions(d, s) + []) == DishContributions(d, s);
  }

  lemma ThreeIngredients(n0: string, n1: string, n2: string, pc: PeopleCount)
    ensures IngredientContributions(ParseIng([n0, n1, n2]), pc)
      == [IngredientContribution(Ingredient(n0), pc), IngredientContribution(Ingredient(n1), pc),
          IngredientContribution(Ingredient(n2), pc)]
  {
  }

  /** The entry a single contribution creates. */
  function Single(c: Contribution): ShoppingItem {
    ShoppingItem(Key(c), c.amount, c.unit, [Trace(c)], false, c.isSpicy)
  }

  /** The aggregate of two keys is their two entries. */
  lemma TwoEntries(ks: seq<Contribution>, k0: string, k1: string)
    requires DistinctKeys(ks) == [k0, k1] && |Matching(ks, k0)| > 0 && |Matching(ks, k1)| > 0
    ensures Aggregate(ks) == [ItemFor(ks, k0), ItemFor(ks, k1)]
  {
    var a := Aggregate(ks);
    PairDisplay(a);
    assert a[0] == ItemFor(ks, k0) && a[1] == ItemFor(ks, k1);
  }

  lemma ThreeEntries(ks: seq<Contribution>, k0: string, k1: string, k2: string)
    requires DistinctKeys(ks) == [k0, k1, k2]
    requires |Matching(ks, k0)| > 0 && |Matching(ks, k1)| > 0 && |Matching(ks, k2)| > 0
    ensures Aggregate(ks) == [ItemFor(ks, k0), ItemFor(ks, k1), ItemFor(ks, k2)]
  {
    var a := Aggregate(ks);
    TripleDisplay(a);
    assert a[0] == ItemFor(ks, k0) && a[1] == ItemFor(ks, k1) && a[2] == ItemFor(ks, k2);
  }

  /** Two contributions under different keys give two entries, in order. */
  lemma TwoKeys(c0: Contribution, c1: Contribution)
    requires Key(c0) != Key(c1)
    ensures Aggregate([c0, c1]) == [Single(c0), Single(c1)]
  {
    var k0, k1 := Key(c0), Key(c1);
    SnocDisplays(c0, c1, c1, c1);
    FirstTwoKeys(c0, c1);
    NewEntry([], c0);
    OtherEntry([c0], c1, k0);
    MatchingStep([], c0, k1);
    NewEntry([c0], c1);
    TwoEntries([c0, c1], k0, k1);
  }

  lemma FirstTwoKeys(c0: Contribution, c1: Contribution)
    requires Key(c0) != Key(c1)
    ensures DistinctKeys([c0, c1]) == [Key(c0), Key(c1)]
  {
    var k0, k1 := Key(c0), Key(c1);
    SnocDisplays(c0, c1, c1, c1);
    SnocDisplays(k0, k1, k1, k1);
    assert DistinctKeys([]) == [];
    DistinctKeysStep([], c0);
    DistinctKeysStep([c0], c1);
    assert k1 !in [k0];
  }

  lemma FirstThreeKeys(c0: Contribution, c1: Contribution, c2: Contribution)
    requires Key(c0) != Key(c1) && Key(c0) != Key(c2) && Key(c1) != Key(c2)
    ensures DistinctKeys([c0, c1, c2]) == [Key(c0), Key(c1), Key(c2)]
  {
    var k0, k1, k2 := Key(c0), Key(c1), Key(c2);
    FirstTwoKeys(c0, c1);
    SnocDisplays(c0, c1, c2, c2);
    SnocDisplays(k0, k1, k2, k2);
    DistinctKeysStep([c0, c1], c2);
    assert k2 !in [k0, k1];
  }

  lemma FirstThreeItems(c0: Contribution, c1: Contribution, c2: Contribution)
    requires Key(c0) != Key(c1) && Key(c0) != Key(c2) && Key(c1) != Key(c2)
    ensures |Matching([c0, c1, c2], Key(c0))| > 0 && ItemFor([c0, c1, c2], Key(c0)) == Single(c0)
    ensures |Matching([c0, c1, c2], Key(c1))| > 0 && ItemFor([c0, c1, c2], Key(c1)) == Single(c1)
    ensures |Matching([c0, c1, c2], Key(c2))| > 0 && ItemFor([c0, c1, c2], Key(c2)) == Single(c2)
  {
    var k0, k1, k2 := Key(c0), Key(c1), Key(c2);
    SnocDisplays(c0, c1, c2, c2);
    NewEntry([], c0);
    OtherEntry([c0], c1, k0);
    OtherEntry([c0, c1], c2, k0);
    MatchingStep([], c0, k1);
    NewEntry([c0], c1);
    OtherEntry([c0, c1], c2, k1);
    MatchingStep([], c0, k2);
    MatchingStep([c0], c1, k2);
    NewEntry([c0, c1], c2);
  }

  /** The entry of the first key met again: both amounts and both traces. */
  function Merged(c0: Contribution, c3: Contribution): ShoppingItem {
    ShoppingItem(Key(c0), c0.amount + c3.amount, c0.unit, [Trace(c0), Trace(c3)], false, c0.isSpicy)
  }

  lemma RepeatedKeyOrder(c0: Contribution, c1: Contribution, c2: Contribution, c3: Contribution)
    requires Key(c0) != Key(c1) && Key(c0) != Key(c2) && Key(c1) != Key(c2) && Key(c3) == Key(c0)
    ensures DistinctKeys([c0, c1, c2, c3]) == [Key(c0), Key(c1), Key(c2)]
  {
    FirstThreeKeys(c0, c1, c2);
    SnocDisplays(c0, c1, c2, c3);
    DistinctKeysStep([c0, c1, c2], c3);
  }

  lemma RepeatedKeyFirstEntry(c0: Contribution, c1: Contribution, c2: Contribution, c3: Contribution)
    requires Key(c0) != Key(c1) && Key(c0) != Key(c2) && Key(c1) != Key(c2) && Key(c3) == Key(c0)
    ensures |Matching([c0, c1, c2, c3], Key(c0))| > 0 && ItemFor([c0, c1, c2, c3], Key(c0)) == Merged(c0, c3)
  {
    var ks := [c0, c1, c2];
    FirstThreeItems(c0, c1, c2);
    SnocDisplays(c0, c1, c2, c3);
    GrownEntry(ks, c3);
    MatchingStep(ks, c3, Key(c0));
    assert [Trace(c0)] + [Trace(c3)] == [Trace(c0), Trace(c3)];
  }

  lemma RepeatedKeyOtherEntries(c0: Contribution, c1: Contribution, c2: Contribution, c3: Contribution)
    requires Key(c0) != Key(c1) && Key(c0) != Key(c2) && Key(c1) != Key(c2) && Key(c3) == Key(c0)
    ensures |Matching([c0, c1, c2, c3], Key(c1))| > 0 && ItemFor([c0, c1, c2, c3], Key(c1)) == Single(c1)
    ensures |Matching([c0, c1, c2, c3], Key(c2))| > 0 && ItemFor([c0, c1, c2, c3], Key(c2)) == Single(c2)
  {
    var ks := [c0, c1, c2];
    FirstThreeItems(c0, c1, c2);
    SnocDisplays(c0, c1, c2, c3);
    OtherEntry(ks, c3, Key(c1));
    OtherEntry(ks, c3, Key(c2));
  }

  /** Three keys, the first met again at the end: its entry sums both amounts. */
  lemma ThreeKeysFirstRepeated(c0: Contribution, c1: Contribution, c2: Contribution, c3: Contribution)
    requires Key(c0) != Key(c1) && Key(c0) != Key(c2) && Key(c1) != Key(c2) && Key(c3) == Key(c0)
    ensures Aggregate([c0, c1, c2, c3]) == [Merged(c0, c3), Single(c1), Single(c2)]
  {
    RepeatedKeyOrder(c0, c1, c2, c3);
    RepeatedKeyFirstEntry(c0, c1, c2, c3);
    RepeatedKeyOtherEntries(c0, c1, c2, c3);
    ThreeEntries([c0, c1, c2, c3], Key(c0), Key(c1), Key(c2));
  }

  lemma KeysOfNames()
    ensures Trim("小米辣") == "小米辣" && Trim("冬瓜") == "冬瓜" && Trim("五花肉") == "五花肉"
    ensures Trim("鸡翅") == "鸡翅" && Trim("可乐") == "可乐"
  {
    TrimNoWhitespace("小米辣");
    TrimNoWhitespace("冬瓜");
    TrimNoWhitespace("五花肉");
    TrimNoWhitespace("鸡翅");
    TrimNoWhitespace("可乐");
  }

  /** The traces the scenarios print. */
  lemma RenderedAmounts()
    ensures NatToString(1) == "1" && NatToString(5) == "5"
    ensures NatToString(350) == "350" && NatToString(400) == "400"
    ensures "5" + "g" == "5g" && "1" + "份" == "1份" && "350" + "g" == "350g" && "400" + "g" == "400g"
  {
    assert DigitChar(0) == '0' && DigitChar(3) == '3' && DigitChar(4) == '4' && DigitChar(5) == '5';
    assert NatToString(35) == NatToString(3) + [DigitChar(5)];
    assert NatToString(350) == NatToString(35) + [DigitChar(0)];
    assert NatToString(40) == NatToString(4) + [DigitChar(0)];
    assert NatToString(400) == NatToString(40) + [DigitChar(0)];
  }

  const A01Stream: seq<Contribution> := [SpicyContribution(), Contribution("冬瓜", 400, "g", false),
    Contribution("五花肉", 350, "g", false), Contribution("小米辣", 1, "份", false)]

  /** The contributions of a one-day plan with A01 (冬瓜焖肉) as its only dish, under the
      defaults: the chili first, then 冬瓜, 五花肉 and 小米辣 as listed. */
  lemma A01Contributions(today: string)
    ensures PlanContributions([DayPlan(today, Some(InitialRecipes[0]), None)], DefaultSettings) == A01Stream
  {
    SeedA01();
    var a01 := Seed("A01", "冬瓜焖肉", A, ["冬瓜", "五花肉", "小米辣"], None);
    OneDishPlan(today, a01, DefaultSettings);
    ThreeIngredients("冬瓜", "五花肉", "小米辣", OneToTwo);
    QuantityWinterMelon();
    QuantityPorkBelly();
    QuantityPortion("小米辣");
    assert AddsSpicy(a01, DefaultSettings);
  }

  lemma A01Kept()
    ensures Kept(A01Stream, false) == A01Stream
  {
    var cs := A01Stream;
    assert forall i :: 0 <= i < |cs| ==> cs[i].name in ["小米辣", "冬瓜", "五花肉"];
    KeptAllPass(cs, false);
  }

  lemma A01Aggregate()
    ensures Aggregate(A01Stream)
      == [ShoppingItem("小米辣", 6, "g", ["5g", "1份"], false, true),
          ShoppingItem("冬瓜", 400, "g", ["400g"], false, false),
          ShoppingItem("五花肉", 350, "g", ["350g"], false, false)]
  {
    var cs := A01Stream;
    KeysOfNames();
    RenderedAmounts();
    assert Key(cs[0]) == "小米辣" && Key(cs[1]) == "冬瓜" && Key(cs[2]) == "五花肉" && Key(cs[3]) == "小米辣";
    ThreeKeysFirstRepeated(cs[0], cs[1], cs[2], cs[3]);
    assert Trace(cs[0]) == "5g" && Trace(cs[1]) == "400g" && Trace(cs[2]) == "350g" && Trace(cs[3]) == "1份";
  }

  /** With the defaults and A01 as the only dish the list is the chili (its own 5 g plus the
      listed portion), then 冬瓜 and 五花肉, in that order. */
  lemma A01ShoppingList(today: string)
    ensures ShoppingList([DayPlan(today, Some(InitialRecipes[0]), None)], DefaultSettings)
      == [ShoppingItem("小米辣", 6, "g", ["5g", "1份"], false, true),
          ShoppingItem("冬瓜", 400, "g", ["400g"], false, false),
          ShoppingItem("五花肉", 350, "g", ["350g"], false, false)]
  {
    A01Contributions(today);
    A01Kept();
    A01Aggregate();
  }

  const B05Stream: seq<Contribution> := [Contribution("鸡翅", 350, "g", false), Contribution("可乐", 1, "份", false)]

  /** B05 (可乐鸡翅) alone, under the defaults: no chili, B being no stir-fry, and its 葱 is
      hidden. */
  lemma B05Contributions(today: string)
    ensures Kept(PlanContributions([DayPlan(today, Some(InitialRecipes[13]), None)], DefaultSettings), false)
      == B05Stream
  {
    SeedB05();
    var b05 := Seed("B05", "可乐鸡翅", B, ["鸡翅", "可乐", "葱"], Some("B站"));
    OneDishPlan(today, b05, DefaultSettings);
    ThreeIngredients("鸡翅", "可乐", "葱", OneToTwo);
    QuantityChickenWings();
    QuantityPortion("可乐");
    assert !AddsSpicy(b05, DefaultSettings);
    var c2 := IngredientContribution(Ingredient("葱"), OneToTwo);
    var cs := B05Stream + [c2];
    assert DishContributions(b05, DefaultSettings) == cs;
    KeptAllPass(B05Stream, false);
    KeptAppend(B05Stream, c2, false);
    assert !Passes(c2, false);
  }

  lemma B05Aggregate()
    ensures Aggregate(B05Stream)
      == [ShoppingItem("鸡翅", 350, "g", ["350g"], false, false),
          ShoppingItem("可乐", 1, "份", ["1份"], false, false)]
  {
    var cs := B05Stream;
    KeysOfNames();
    RenderedAmounts();
    assert Key(cs[0]) == "鸡翅" && Key(cs[1]) == "可乐";
    TwoKeys(cs[0], cs[1]);
    assert Trace(cs[0]) == "350g" && Trace(cs[1]) == "1份";
  }

  /** With the defaults and B05 as the only dish the list is 鸡翅 and 可乐. */
  lemma B05ShoppingList(today: string)
    ensures ShoppingList([DayPlan(today, Some(InitialRecipes[13]), None)], DefaultSettings)
      == [ShoppingItem("鸡翅", 350, "g", ["350g"], false, false),
          ShoppingItem("可乐", 1, "份", ["1份"], false, false)]
  {
    B05Contributions(today);
    B05Aggregate();
  }
}
