/** The defaults and the seed catalog (constants.ts). */
module Constants {
  import opened Types

  /** `DEFAULT_SETTINGS`. */
  const DefaultSettings: Settings := Settings(OneToTwo, true, false, false)

  /** `parseIng`: one ingredient record per name, in order. */
  function ParseIng(names: seq<string>): (r: seq<Ingredient>)
    ensures |r| == |names|
    ensures forall i :: 0 <= i < |r| ==> r[i] == Ingredient(names[i])
  {
    seq(|names|, i requires 0 <= i < |names| => Ingredient(names[i]))
  }

  /** The names of an ingredient list, inverse of `ParseIng`. */
  function Names(ings: seq<Ingredient>): (r: seq<string>)
    ensures |r| == |ings|
  {
    seq(|ings|, i requires 0 <= i < |ings| => ings[i].name)
  }

  lemma ParseIngRoundTrip(names: seq<string>, ings: seq<Ingredient>)
    ensures Names(ParseIng(names)) == names
    ensures ParseIng(Names(ings)) == ings
  {
  }

  /** A seed record: no `deleted` flag and no creation time. */
  function Seed(id: string, name: string, category: Category, ingredients: seq<string>, link: Option<string>): (r: Recipe)
    ensures r.id == id && r.category == category && !r.deleted && r.createdAt == None
    ensures Names(r.ingredients) == ingredients
  {
    Recipe(id, name, category, ParseIng(ingredients), link, false, None)
  }

  /** The A group of `INITIAL_RECIPES`: quick stir-fries. */
  const SeedsA: seq<Recipe> := [
      Seed("A01", "冬瓜焖肉", A, ["冬瓜", "五花肉", "小米辣"], None),
      Seed("A02", "青瓜炒肉", A, ["青瓜", "五花肉"], None),
      Seed("A03", "香菇炒肉", A, ["香菇", "五花肉"], None),
      Seed("A04", "土豆丝炒肉", A, ["土豆", "五花肉"], None),
      Seed("A05", "豆角炒肉", A, ["豆角", "五花肉"], None),
      Seed("A06", "茄子炒肉", A, ["茄子", "五花肉"], None),
      Seed("A07", "绿豆芽炒肉", A, ["绿豆芽", "五花肉"], None),
      Seed("A08", "南瓜焖肉", A, ["南瓜", "五花肉"], None),
      Seed("A09", "蒸肉饼", A, ["香菇", "马蹄", "芹菜", "梅花肉"], None)
    ]

  /** The B group: substantial mains. */
  const SeedsB: seq<Recipe> := [
      Seed("B01", "蒸牛肉饼", B, ["牛肉", "马蹄", "香菇", "芹菜"], Some("B站")),
      Seed("B02", "番茄牛肉蛋羹", B, ["牛肉", "番茄", "鸡蛋", "香菜"], Some("B站")),
      Seed("B03", "小炒黄牛肉", B, ["牛肉", "洋葱", "青椒", "泡椒", "小米辣", "香菜"], Some("抖音")),
      Seed("B04", "葱爆羊肉", B, ["羊肉", "大葱", "红椒", "小米辣"], Some("B站")),
      Seed("B05", "可乐鸡翅", B, ["鸡翅", "可乐", "葱"], Some("B站")),
      Seed("B06", "蒸排骨", B, ["前排骨", "芋头仔", "香菜", "豆豉"], Some("B站")),
      Seed("B07", "黄焖鸡", B, ["三黄鸡", "小土豆", "香菇"], None),
      Seed("B08", "菠萝焖鸭", B, ["菠萝", "鸭"], Some("抖音")),
      Seed("B09", "椒盐虾", B, ["虾", "椒盐", "红葱头"], Some("抖音")),
      Seed("B10", "蒸鲫/皖鱼", B, ["鱼", "葱", "香菜", "豆豉"], None),
      Seed("B11", "红烧鱼", B, ["皖鱼", "十三香", "猪油", "豆瓣酱", "豆腐"], Some("B站"))
    ]

  /** The C group: soups and vegetable sides. */
  const SeedsC: seq<Recipe> := [
      Seed("C01", "炒花甲", C, ["花甲", "香菜", "小米辣"], None),
      Seed("C02", "番茄炒鸡蛋", C, ["番茄", "鸡蛋"], None),
      Seed("C03", "蒸鸡蛋", C, ["鸡蛋", "油", "盐", "胡椒"], None),
      Seed("C04", "油麦菜", C, ["油麦菜"], None),
      Seed("C05", "生菜", C, ["生菜"], None),
      Seed("C06", "紫菜汤", C, ["虾皮", "紫菜", "鸡蛋"], None),
      Seed("C07", "冬瓜汤", C, ["冬瓜", "鸡蛋"], None),
      Seed("C08", "番茄鸡蛋汤", C, ["番茄", "鸡蛋"], Some("B站"))
    ]

  /** `INITIAL_RECIPES`: nine A, eleven B and eight C dishes, in that order. */
  const InitialRecipes: seq<Recipe> := SeedsA + SeedsB + SeedsC

  /** The first A dish and the fifth B dish, by position in the catalog. */
  lemma SeedA01()
    ensures InitialRecipes[0] == Seed("A01", "冬瓜焖肉", A, ["冬瓜", "五花肉", "小米辣"], None)
  {
    assert InitialRecipes[0] == SeedsA[0];
  }

  lemma SeedB05()
    ensures InitialRecipes[13] == Seed("B05", "可乐鸡翅", B, ["鸡翅", "可乐", "葱"], Some("B站"))
  {
    assert InitialRecipes[13] == SeedsB[4];
  }

  /** Every id has three characters, the first being the letter of the record's category. */
  predicate IdsNameCategory(rs: seq<Recipe>) {
    forall k :: 0 <= k < |rs| ==> |rs[k].id| == 3 && rs[k].id[0] == CategoryLetter(rs[k].category)
  }

  lemma IdsNameCategoryJoin(a: seq<Recipe>, b: seq<Recipe>)
    requires IdsNameCategory(a) && IdsNameCategory(b)
    ensures IdsNameCategory(a + b)
  {
  }

  lemma SeedsAIds()
    ensures IdsNameCategory(SeedsA)
  {
  }

  lemma SeedsBIds()
    ensures IdsNameCategory(SeedsB)
  {
  }

  lemma SeedsCIds()
    ensures IdsNameCategory(SeedsC)
  {
  }

  /** Each seed id is its category letter followed by two digits. */
  lemma SeedIdsNameTheirCategory()
    ensures forall i :: 0 <= i < |InitialRecipes| ==>
      |InitialRecipes[i].id| == 3 && InitialRecipes[i].id[0] == CategoryLetter(InitialRecipes[i].category)
  {
    SeedsAIds();
    SeedsBIds();
    SeedsCIds();
    IdsNameCategoryJoin(SeedsA, SeedsB);
    IdsNameCategoryJoin(SeedsA + SeedsB, SeedsC);
  }

  /** The number an id of the seed shape stands for: letter, then two digits. */
  function IdCode(id: string): int
    requires |id| == 3
  {
    (id[0] as int) * 0x1_0000_0000 + (id[1] as int) * 0x1_0000 + (id[2] as int)
  }

  /** Ids of the seed shape whose codes increase along the list. */
  predicate CodesIncrease(ids: seq<string>) {
    && (forall k :: 0 <= k < |ids| ==> |ids[k]| == 3)
    && (forall k :: 0 <= k < |ids| - 1 ==> IdCode(ids[k]) < IdCode(ids[k + 1]))
  }

  /** The seed ids of each group, in catalog order. */
  const SeedIdsA: seq<string> := ["A01", "A02", "A03", "A04", "A05", "A06", "A07", "A08", "A09"]
  const SeedIdsB: seq<string> := ["B01", "B02", "B03", "B04", "B05", "B06", "B07", "B08", "B09", "B10", "B11"]
  const SeedIdsC: seq<string> := ["C01", "C02", "C03", "C04", "C05", "C06", "C07", "C08"]

  lemma SeedsAIdList()
    ensures Ids(SeedsA) == SeedIdsA
  {
  }

  lemma SeedsBIdList()
    ensures Ids(SeedsB) == SeedIdsB
  {
  }

  lemma SeedsCIdList()
    ensures Ids(SeedsC) == SeedIdsC
  {
  }

  lemma GroupACodes()
    ensures CodesIncrease(SeedIdsA)
  {
  }

  lemma GroupBCodes()
    ensures CodesIncrease(SeedIdsB)
  {
  }

  lemma GroupCCodes()
    ensures CodesIncrease(SeedIdsC)
  {
  }

  lemma IdsConcat(a: seq<Recipe>, b: seq<Recipe>)
    ensures Ids(a + b) == Ids(a) + Ids(b)
  {
  }

  lemma CodesIncreaseJoin(a: seq<string>, b: seq<string>)
    requires CodesIncrease(a) && CodesIncrease(b) && |a| > 0 && |b| > 0
    requires IdCode(a[|a| - 1]) < IdCode(b[0])
    ensures CodesIncrease(a + b)
  {
    var ab := a + b;
    forall k | 0 <= k < |ab| - 1 ensures IdCode(ab[k]) < IdCode(ab[k + 1]) {
      if k == |a| - 1 {
        assert ab[k] == a[|a| - 1] && ab[k + 1] == b[0];
      }
    }
  }

  lemma SeedCodesIncrease()
    ensures Ids(InitialRecipes) == SeedIdsA + SeedIdsB + SeedIdsC
    ensures CodesIncrease(SeedIdsA + SeedIdsB + SeedIdsC)
  {
    SeedsAIdList();
    SeedsBIdList();
    SeedsCIdList();
    GroupACodes();
    GroupBCodes();
    GroupCCodes();
    IdsConcat(SeedsA, SeedsB);
    IdsConcat(SeedsA + SeedsB, SeedsC);
    CodesIncreaseJoin(SeedIdsA, SeedIdsB);
    CodesIncreaseJoin(SeedIdsA + SeedIdsB, SeedIdsC);
  }

  /** The seed ids are pairwise distinct: their codes strictly increase along the catalog. */
  lemma SeedIdsDistinct()
    ensures forall i, j :: 0 <= i < j < |InitialRecipes| ==> InitialRecipes[i].id != InitialRecipes[j].id
  {
    SeedCodesIncrease();
    var ids := Ids(InitialRecipes);
    forall i, j | 0 <= i < j < |InitialRecipes| ensures InitialRecipes[i].id != InitialRecipes[j].id {
      assert ids[i] == InitialRecipes[i].id && ids[j] == InitialRecipes[j].id;
      IncreasingCodes(ids, i, j);
    }
  }

  lemma {:induction false} IncreasingCodes(ids: seq<string>, i: int, j: int)
    requires CodesIncrease(ids)
    requires 0 <= i < j < |ids|
    ensures IdCode(ids[i]) < IdCode(ids[j])
  {
    if i + 1 < j {
      IncreasingCodes(ids, i, j - 1);
    }
  }
}
