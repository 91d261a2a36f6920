/** The records of the meal planner (types.ts). */
module Types {

  datatype Option<+T> = None | Some(value: T)

  /** A = quick stir-fry, B = substantial main, C = soup / vegetable side. */
  datatype Category = A | B | C

  /** The letter a category is written as, the first character of seeded and generated ids. */
  function CategoryLetter(c: Category): (l: char)
    ensures l in "ABC"
  {
    match c
    case A => 'A'
    case B => 'B'
    case C => 'C'
  }

  /** An ingredient is only a name; quantities are inferred when the list is built. */
  datatype Ingredient = Ingredient(name: string)

  /** `deleted` absent in a stored record reads as false. */
  datatype Recipe = Recipe(
    id: string,
    name: string,
    category: Category,
    ingredients: seq<Ingredient>,
    link: Option<string>,
    deleted: bool,
    createdAt: Option<int>)

  /** The ids of a list of records, in order. */
  function Ids(rs: seq<Recipe>): seq<string> {
    seq(|rs|, i requires 0 <= i < |rs| => rs[i].id)
  }

  datatype PeopleCount = OneToTwo | ThreeToFour

  datatype Settings = Settings(
    peopleCount: PeopleCount,
    autoSpicyA: bool,
    showGarlicGinger: bool,
    cloudSync: bool)

  datatype DayPlan = DayPlan(date: string, mainDish: Option<Recipe>, sideDish: Option<Recipe>)

  datatype ShoppingItem = ShoppingItem(
    name: string,
    amount: nat,
    unit: string,
    originalText: seq<string>,
    checked: bool,
    isSpicy: bool)
}
