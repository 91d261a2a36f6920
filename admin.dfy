/** The recipe administration page (pages/Admin.tsx): a form that creates or edits a recipe,
    with the ingredients typed as one text, and the bin actions.

    `Date.now()` in `genId` becomes the parameter `now`; `window.confirm` becomes the boolean
    answer `confirmed`. */
module Admin {
  import opened Types
  import opened Strings
  import opened Sequences
  import opened Storage
  import opened Constants

  /** The separators of the ingredient text: `,`, the full-width `，`, and `\s`. */
  predicate IsSeparator(c: char) {
    c == ',' || c == '，' || IsWhitespace(c)
  }

  predicate NoSeparator(s: string) {
    forall i :: 0 <= i < |s| ==> !IsSeparator(s[i])
  }

  /** The length of the leading run of non-separators. */
  function TokenLength(s: string): (n: nat)
    ensures n <= |s|
    ensures forall i :: 0 <= i < n ==> !IsSeparator(s[i])
    ensures n < |s| ==> IsSeparator(s[n])
  {
    if s == [] || IsSeparator(s[0]) then 0 else 1 + TokenLength(s[1..])
  }

  /** `text.split(/[,，\s]+/).filter(Boolean)`: the maximal runs of non-separators, in order. */
  function Tokens(s: string): seq<string>
    decreases |s|
  {
    if s == [] then []
    else if IsSeparator(s[0]) then Tokens(s[1..])
    else
      var n := TokenLength(s);
      [s[..n]] + Tokens(s[n..])
  }

  /** The text with every separator removed. */
  function RemoveSeparators(s: string): (r: string)
    ensures NoSeparator(r)
  {
    if s == [] then []
    else (if IsSeparator(s[0]) then [] else [s[0]]) + RemoveSeparators(s[1..])
  }

  function Concat(ts: seq<string>): string {
    if ts == [] then [] else ts[0] + Concat(ts[1..])
  }

  /** `names.join(' ')`. */
  function Join(names: seq<string>): string {
    if |names| == 0 then []
    else if |names| == 1 then names[0]
    else names[0] + " " + Join(names[1..])
  }

  /** Every token is non-empty and free of separators. */
  lemma {:induction false} TokensWellFormed(s: string)
    ensures forall i :: 0 <= i < |Tokens(s)| ==> |Tokens(s)[i]| > 0 && NoSeparator(Tokens(s)[i])
    decreases |s|
  {
    if s != [] {
      if IsSeparator(s[0]) {
        TokensWellFormed(s[1..]);
      } else {
        var n := TokenLength(s);
        TokensWellFormed(s[n..]);
      }
    }
  }

  lemma {:induction false} RemoveSeparatorsConcat(a: string, b: string)
    ensures RemoveSeparators(a + b) == RemoveSeparators(a) + RemoveSeparators(b)
  {
    if a != [] {
      assert (a + b)[1..] == a[1..] + b;
      RemoveSeparatorsConcat(a[1..], b);
    } else {
      assert a + b == b;
    }
  }

  lemma {:induction false} RemoveSeparatorsKeepsWord(t: string)
    requires NoSeparator(t)
    ensures RemoveSeparators(t) == t
  {
    if t != [] {
      RemoveSeparatorsKeepsWord(t[1..]);
    }
  }

  /** The tokens spell out the text minus its separators: nothing is lost and order is kept. */
  lemma {:induction false} TokensKeepText(s: string)
    ensures Concat(Tokens(s)) == RemoveSeparators(s)
    decreases |s|
  {
    if s != [] {
      if IsSeparator(s[0]) {
        TokensKeepText(s[1..]);
      } else {
        var n := TokenLength(s);
        TokensKeepText(s[n..]);
        assert s == s[..n] + s[n..];
        RemoveSeparatorsConcat(s[..n], s[n..]);
        RemoveSeparatorsKeepsWord(s[..n]);
      }
    }
  }

  lemma {:induction false} TokenLengthOfWord(w: string, rest: string)
    requires NoSeparator(w)
    requires rest == [] || IsSeparator(rest[0])
    ensures TokenLength(w + rest) == |w|
  {
    if w == [] {
      assert w + rest == rest;
    } else {
      assert (w + rest)[1..] == w[1..] + rest;
      TokenLengthOfWord(w[1..], rest);
    }
  }

  lemma TokensOfWord(w: string, rest: string)
    requires |w| > 0 && NoSeparator(w)
    requires rest == [] || IsSeparator(rest[0])
    ensures Tokens(w + rest) == [w] + Tokens(rest)
  {
    TokenLengthOfWord(w, rest);
    assert (w + rest)[..|w|] == w;
    assert (w + rest)[|w|..] == rest;
  }

  /** Joining non-empty, separator-free names with spaces, as the edit form does, and splitting
      the text again gives back the names. */
  lemma {:induction false} TokensOfJoin(names: seq<string>)
    requires forall i :: 0 <= i < |names| ==> |names[i]| > 0 && NoSeparator(names[i])
    ensures Tokens(Join(names)) == names
  {
    if |names| == 1 {
      TokensOfWord(names[0], []);
      assert names[0] + [] == names[0];
    } else if |names| > 1 {
      var rest := " " + Join(names[1..]);
      JoinCons(names);
      TokensOfWord(names[0], rest);
      TokensAfterSpace(Join(names[1..]));
      TokensOfJoin(names[1..]);
    }
  }

  lemma JoinCons(names: seq<string>)
    requires |names| > 1
    ensures Join(names) == names[0] + (" " + Join(names[1..]))
  {
    AppendAssoc(names[0], " ", Join(names[1..]));
  }

  lemma TokensAfterSpace(t: string)
    ensures Tokens(" " + t) == Tokens(t)
  {
    assert (" " + t)[1..] == t;
    assert IsSeparator((" " + t)[0]);
  }

  /** `Date.now().toString().slice(-4)`: the last four characters, or all of a shorter text. */
  function LastFour(t: string): (r: string)
    ensures |r| == if |t| >= 4 then 4 else |t|
    ensures r == t[|t| - |r|..]
  {
    if |t| >= 4 then t[|t| - 4..] else t
  }

  /** `genId`: the category letter, then the last digits of the timestamp. */
  function GenId(cat: Category, now: nat): (id: string)
    ensures 2 <= |id| <= 5 && id[0] == CategoryLetter(cat)
    ensures forall i :: 1 <= i < |id| ==> '0' <= id[i] <= '9'
    ensures now >= 1000 ==> |id| == 5
    ensures id[1..] == LastFour(NatToString(now))
  {
    var t := NatToString(now);
    assert now >= 1000 ==> |t| >= 4 by {
      if now >= 1000 {
        NatToStringLength(now);
      }
    }
    [CategoryLetter(cat)] + LastFour(t)
  }

  lemma {:induction false} NatToStringLength(n: nat)
    requires n >= 1000
    ensures |NatToString(n)| >= 4
  {
    var m1 := n / 10;
    var m2 := m1 / 10;
    var m3 := m2 / 10;
    assert m1 >= 100 && m2 >= 10 && m3 >= 1;
    assert |NatToString(n)| == |NatToString(m1)| + 1;
    assert |NatToString(m1)| == |NatToString(m2)| + 1;
    assert |NatToString(m2)| == |NatToString(m3)| + 1;
  }

  /** Editing keeps the record's id, bin flag and creation time and takes the form's values. */
  function EditedRecipe(editing: Recipe, name: string, cat: Category, ings: seq<Ingredient>, link: string): (r: Recipe)
    ensures r.id == editing.id && r.deleted == editing.deleted && r.createdAt == editing.createdAt
    ensures r.name == name && r.category == cat && r.ingredients == ings && r.link == Some(link)
  {
    editing.(name := name, category := cat, ingredients := ings, link := Some(link))
  }

  /** A new record is active, carries no creation time, and its id starts with its category. */
  function NewRecipe(cat: Category, name: string, ings: seq<Ingredient>, link: string, now: nat): (r: Recipe)
    ensures !r.deleted && r.createdAt == None && |r.id| > 0 && r.id[0] == CategoryLetter(r.category)
    ensures r.name == name && r.category == cat && r.ingredients == ings && r.link == Some(link)
  {
    Recipe(GenId(cat, now), name, cat, ings, Some(link), false, None)
  }

  /** The ingredients `handleSave` reads out of the form text. */
  function FormIngredients(text: string): (r: seq<Ingredient>)
    ensures forall i :: 0 <= i < |r| ==> |r[i].name| > 0 && NoSeparator(r[i].name)
  {
    TokensWellFormed(text);
    ParseIng(Tokens(text))
  }

  /** Opening a recipe with a link and saving the form untouched gives back the same record, as
      long as its ingredient names are non-empty and separator-free. */
  lemma EditUnchangedKeepsRecipe(r: Recipe)
    requires r.link.Some?
    requires forall i :: 0 <= i < |r.ingredients| ==>
      |r.ingredients[i].name| > 0 && NoSeparator(r.ingredients[i].name)
    ensures EditedRecipe(r, r.name, r.category, FormIngredients(Join(Names(r.ingredients))), r.link.value) == r
  {
    TokensOfJoin(Names(r.ingredients));
    ParseIngRoundTrip(Names(r.ingredients), r.ingredients);
  }

  /** The catalog `handleSave` writes: the edited record replaced by id, or a new record
      appended. */
  function SavedCatalog(rs: seq<Recipe>, editing: Option<Recipe>, name: string, cat: Category, ingsText: string,
                        link: string, now: nat): seq<Recipe>
  {
    match editing
    case Some(e) => UpdateRecipe(rs, EditedRecipe(e, name, cat, FormIngredients(ingsText), link))
    case None => AddRecipe(rs, NewRecipe(cat, name, FormIngredients(ingsText), link, now))
  }

  datatype View = ActiveView | BinView

  class AdminPage {
    var store: Store
    var view: View
    var editingRecipe: Option<Recipe>
    var modalOpen: bool
    var formName: string
    var formCat: Category
    var formIngs: string
    var formLink: string

    constructor(store: Store)
      ensures this.store == store && view == ActiveView && editingRecipe == None && !modalOpen
      ensures formName == "" && formCat == A && formIngs == "" && formLink == ""
    {
      this.store := store;
      view := ActiveView;
      editingRecipe := None;
      modalOpen := false;
      formName := "";
      formCat := A;
      formIngs := "";
      formLink := "";
    }

    method SetView(v: View)
      modifies this
      ensures view == v && store == old(store) && editingRecipe == old(editingRecipe)
      ensures modalOpen == old(modalOpen)
      ensures formName == old(formName) && formCat == old(formCat)
      ensures formIngs == old(formIngs) && formLink == old(formLink)
    {
      view := v;
    }

    /** `openEdit`: loads a recipe into the form (a missing link shows as empty), or clears the
        form for a new one; opens the form either way. */
    method OpenEdit(r: Option<Recipe>)
      modifies this
      ensures store == old(store) && view == old(view) && modalOpen && editingRecipe == r
      ensures r.Some? ==>
        && formName == r.value.name && formCat == r.value.category
        && formIngs == Join(Names(r.value.ingredients))
        && formLink == (if r.value.link.Some? then r.value.link.value else "")
      ensures r.None? ==> formName == "" && formCat == A && formIngs == "" && formLink == ""
    {
      if r.Some? {
        editingRecipe := r;
        formName := r.value.name;
        formCat := r.value.category;
        formIngs := Join(Names(r.value.ingredients));
        formLink := if r.value.link.Some? then r.value.link.value else "";
      } else {
        editingRecipe := None;
        formName := "";
        formCat := A;
        formIngs := "";
        formLink := "";
      }
      modalOpen := true;
    }

    /** `handleSave`: replaces the edited record by id, or appends a new one; closes the form. */
    method HandleSave(now: nat)
      modifies this, store
      ensures store == old(store) && !modalOpen && view == old(view) && editingRecipe == old(editingRecipe)
      ensures formName == old(formName) && formCat == old(formCat)
      ensures formIngs == old(formIngs) && formLink == old(formLink)
      ensures store.settings == old(store.settings) && store.currentPlan == old(store.currentPlan)
      ensures store.recipes == SavedCatalog(old(store.recipes), editingRecipe, formName, formCat, formIngs, formLink, now)
    {
      store.SaveRecipes(SavedCatalog(store.recipes, editingRecipe, formName, formCat, formIngs, formLink, now));
      modalOpen := false;
    }

    /** `handleDelete`: moves the recipe to the bin once the user confirms. */
    method HandleDelete(id: string, confirmed: bool)
      modifies store
      ensures store.recipes == if confirmed then DeleteRecipe(old(store.recipes), id) else old(store.recipes)
      ensures store.settings == old(store.settings) && store.currentPlan == old(store.currentPlan)
    {
      if confirmed {
        store.SaveRecipes(DeleteRecipe(store.recipes, id));
      }
    }

    /** The restore button of the bin: no confirmation. */
    method HandleRestore(id: string)
      modifies store
      ensures store.recipes == RestoreRecipe(old(store.recipes), id)
      ensures store.settings == old(store.settings) && store.currentPlan == old(store.currentPlan)
    {
      store.SaveRecipes(RestoreRecipe(store.recipes, id));
    }

    /** The purge button of the bin, after confirmation. */
    method HandlePermDelete(id: string, confirmed: bool)
      modifies store
      ensures store.recipes == if confirmed then PermDeleteRecipe(old(store.recipes), id) else old(store.recipes)
      ensures store.settings == old(store.settings) && store.currentPlan == old(store.currentPlan)
    {
      if confirmed {
        store.SaveRecipes(PermDeleteRecipe(store.recipes, id));
      }
    }

    /** `handleEmptyBin`, after confirmation. */
    method HandleEmptyBin(confirmed: bool)
      modifies store
      ensures store.recipes == if confirmed then EmptyBin(old(store.recipes)) else old(store.recipes)
      ensures store.settings == old(store.settings) && store.currentPlan == old(store.currentPlan)
    {
      if confirmed {
        store.SaveRecipes(EmptyBin(store.recipes));
      }
    }
  }
}
