/** The persistence slots and the recipe catalog operations of `useRecipes` (services/storage.ts).

    localStorage becomes the fields of a `Store` object: the recipes slot starts as the seed
    catalog, settings start as the defaults, the current plan starts empty. Each catalog
    operation is a pure function from the old list to the new one, which the pages then write
    back with `SaveRecipes`. */
module Storage {
  import opened Types
  import opened Sequences
  import Constants

  class Store {
    var recipes: seq<Recipe>
    var settings: Settings
    var currentPlan: seq<DayPlan>

    /** Nothing stored yet: `getRecipes` seeds the catalog, `getSettings` falls back to the
        defaults and `getCurrentPlan` to the empty plan. */
    constructor()
      ensures recipes == Constants.InitialRecipes
      ensures settings == Constants.DefaultSettings
      ensures currentPlan == []
    {
      recipes := Constants.InitialRecipes;
      settings := Constants.DefaultSettings;
      currentPlan := [];
    }

    method SaveRecipes(rs: seq<Recipe>)
      modifies this
      ensures recipes == rs
      ensures settings == old(settings) && currentPlan == old(currentPlan)
    {
      recipes := rs;
    }

    method SaveSettings(s: Settings)
      modifies this
      ensures settings == s
      ensures recipes == old(recipes) && currentPlan == old(currentPlan)
    {
      settings := s;
    }

    method SaveCurrentPlan(plan: seq<DayPlan>)
      modifies this
      ensures currentPlan == plan
      ensures recipes == old(recipes) && settings == old(settings)
    {
      currentPlan := plan;
    }
  }

  // ---------------------------------------------------------------------------------------
  // Views

  predicate IsActive(r: Recipe) {
    !r.deleted
  }

  predicate IsDeleted(r: Recipe) {
    r.deleted
  }

  /** `activeRecipes`: the records not in the bin, in catalog order. */
  function ActiveRecipes(rs: seq<Recipe>): (r: seq<Recipe>)
    ensures forall i :: 0 <= i < |r| ==> !r[i].deleted
  {
    FilterSatisfies(rs, IsActive);
    Filter(rs, IsActive)
  }

  /** `deletedRecipes`: the records in the bin, in catalog order. */
  function DeletedRecipes(rs: seq<Recipe>): (r: seq<Recipe>)
    ensures forall i :: 0 <= i < |r| ==> r[i].deleted
  {
    FilterSatisfies(rs, IsDeleted);
    Filter(rs, IsDeleted)
  }

  /** The records of one category, in order; the pages bucket recipes this way. */
  function OfCategory(rs: seq<Recipe>, c: Category): (r: seq<Recipe>)
    ensures forall i :: 0 <= i < |r| ==> r[i].category == c
  {
    FilterSatisfies(rs, (x: Recipe) => x.category == c);
    Filter(rs, (x: Recipe) => x.category == c)
  }

  /** The two views split the catalog: every record is in exactly one of them. */
  lemma ViewsPartition(rs: seq<Recipe>)
    ensures multiset(ActiveRecipes(rs)) + multiset(DeletedRecipes(rs)) == multiset(rs)
    ensures forall x :: x in ActiveRecipes(rs) <==> x in rs && !x.deleted
    ensures forall x :: x in DeletedRecipes(rs) <==> x in rs && x.deleted
  {
    FilterPartition(rs, IsActive, IsDeleted);
    forall x ensures x in ActiveRecipes(rs) <==> x in rs && !x.deleted {
      FilterMembers(rs, IsActive, x);
    }
    forall x ensures x in DeletedRecipes(rs) <==> x in rs && x.deleted {
      FilterMembers(rs, IsDeleted, x);
    }
  }

  /** The views keep catalog order: they distribute over concatenation. */
  lemma ViewsKeepOrder(a: seq<Recipe>, b: seq<Recipe>)
    ensures ActiveRecipes(a + b) == ActiveRecipes(a) + ActiveRecipes(b)
    ensures DeletedRecipes(a + b) == DeletedRecipes(a) + DeletedRecipes(b)
  {
    FilterConcat(a, b, IsActive);
    FilterConcat(a, b, IsDeleted);
  }

  // ---------------------------------------------------------------------------------------
  // Edits

  /** `addRecipe`: appends, without looking for a record with the same id. */
  function AddRecipe(rs: seq<Recipe>, r: Recipe): (u: seq<Recipe>)
    ensures |u| == |rs| + 1 && u[..|rs|] == rs && u[|rs|] == r
  {
    rs + [r]
  }

  /** A new record joins the end of the view its flag puts it in, and the other view is
      unchanged. */
  lemma AddJoinsItsView(rs: seq<Recipe>, r: Recipe)
    ensures !r.deleted ==>
      ActiveRecipes(AddRecipe(rs, r)) == ActiveRecipes(rs) + [r]
      && DeletedRecipes(AddRecipe(rs, r)) == DeletedRecipes(rs)
    ensures r.deleted ==>
      DeletedRecipes(AddRecipe(rs, r)) == DeletedRecipes(rs) + [r]
      && ActiveRecipes(AddRecipe(rs, r)) == ActiveRecipes(rs)
  {
    ViewsKeepOrder(rs, [r]);
  }

  /** `updateRecipe`: every record with r's id becomes r. */
  function UpdateRecipe(rs: seq<Recipe>, r: Recipe): (u: seq<Recipe>)
    ensures Ids(u) == Ids(rs)
  {
    seq(|rs|, i requires 0 <= i < |rs| => if rs[i].id == r.id then r else rs[i])
  }

  lemma UpdateReplacesMatching(rs: seq<Recipe>, r: Recipe)
    ensures |UpdateRecipe(rs, r)| == |rs|
    ensures forall i :: 0 <= i < |rs| && rs[i].id == r.id ==> UpdateRecipe(rs, r)[i] == r
    ensures forall i :: 0 <= i < |rs| && rs[i].id != r.id ==> UpdateRecipe(rs, r)[i] == rs[i]
  {
  }

  /** Updating with an id no record carries changes nothing. */
  lemma UpdateUnknownIdIsNoOp(rs: seq<Recipe>, r: Recipe)
    requires r.id !in Ids(rs)
    ensures UpdateRecipe(rs, r) == rs
  {
    forall i | 0 <= i < |rs| ensures UpdateRecipe(rs, r)[i] == rs[i] {
      assert Ids(rs)[i] == rs[i].id;
    }
  }

  /** Sets the bin flag of every record with that id. */
  function SetDeleted(rs: seq<Recipe>, id: string, flag: bool): (u: seq<Recipe>)
    ensures Ids(u) == Ids(rs)
  {
    seq(|rs|, i requires 0 <= i < |rs| => if rs[i].id == id then rs[i].(deleted := flag) else rs[i])
  }

  /** `deleteRecipe`: moves every record with the id to the bin. */
  function DeleteRecipe(rs: seq<Recipe>, id: string): (u: seq<Recipe>)
    ensures Ids(u) == Ids(rs)
    ensures forall i :: 0 <= i < |u| && u[i].id == id ==> u[i].deleted
  {
    SetDeletedChangesOnlyTheFlag(rs, id, true);
    SetDeleted(rs, id, true)
  }

  /** `restoreRecipe`: takes every record with the id out of the bin. */
  function RestoreRecipe(rs: seq<Recipe>, id: string): (u: seq<Recipe>)
    ensures Ids(u) == Ids(rs)
    ensures forall i :: 0 <= i < |u| && u[i].id == id ==> !u[i].deleted
  {
    SetDeletedChangesOnlyTheFlag(rs, id, false);
    SetDeleted(rs, id, false)
  }

  /** Only the flag of the matching records changes; order and every other record stay. */
  lemma SetDeletedChangesOnlyTheFlag(rs: seq<Recipe>, id: string, flag: bool)
    ensures |SetDeleted(rs, id, flag)| == |rs|
    ensures forall i :: 0 <= i < |rs| && rs[i].id != id ==> SetDeleted(rs, id, flag)[i] == rs[i]
    ensures forall i :: 0 <= i < |rs| && rs[i].id == id ==>
      SetDeleted(rs, id, flag)[i].deleted == flag && SetDeleted(rs, id, flag)[i].(deleted := rs[i].deleted) == rs[i]
  {
  }

  lemma SetDeletedIdempotent(rs: seq<Recipe>, id: string, flag: bool)
    ensures SetDeleted(SetDeleted(rs, id, flag), id, flag) == SetDeleted(rs, id, flag)
  {
  }

  /** Restoring what was just deleted gives back the catalog, when those records were active. */
  lemma RestoreUndoesDelete(rs: seq<Recipe>, id: string)
    requires forall i :: 0 <= i < |rs| && rs[i].id == id ==> !rs[i].deleted
    ensures RestoreRecipe(DeleteRecipe(rs, id), id) == rs
  {
    var u := RestoreRecipe(DeleteRecipe(rs, id), id);
    forall i | 0 <= i < |rs| ensures u[i] == rs[i] {
      assert Ids(DeleteRecipe(rs, id))[i] == rs[i].id;
    }
  }

  /** Deleting leaves the active view without the records of that id, and puts them in the bin. */
  lemma DeleteMovesToBin(rs: seq<Recipe>, id: string, x: Recipe)
    ensures x in ActiveRecipes(DeleteRecipe(rs, id)) <==> x in ActiveRecipes(rs) && x.id != id
    ensures x in DeletedRecipes(DeleteRecipe(rs, id)) <==>
      (x in DeletedRecipes(rs) && x.id != id)
      || (x.id == id && x.deleted && (x in rs || x.(deleted := false) in rs))
  {
    var u := DeleteRecipe(rs, id);
    FilterMembers(rs, IsActive, x);
    FilterMembers(u, IsActive, x);
    FilterMembers(rs, IsDeleted, x);
    FilterMembers(u, IsDeleted, x);
    if x in u {
      var i :| 0 <= i < |u| && u[i] == x;
      assert Ids(u)[i] == rs[i].id;
    }
    if x in rs && x.id != id {
      var i :| 0 <= i < |rs| && rs[i] == x;
      assert u[i] == x;
    }
    if x.id == id && x.deleted && x.(deleted := false) in rs {
      var i :| 0 <= i < |rs| && rs[i] == x.(deleted := false);
      assert u[i] == x;
    }
    if x.id == id && x.deleted && x in rs {
      var i :| 0 <= i < |rs| && rs[i] == x;
      assert u[i] == x;
    }
  }

  /** `permDeleteRecipe`: drops every record with the id, keeping the order of the rest. */
  function PermDeleteRecipe(rs: seq<Recipe>, id: string): (u: seq<Recipe>)
    ensures forall i :: 0 <= i < |u| ==> u[i].id != id
  {
    FilterSatisfies(rs, (x: Recipe) => x.id != id);
    Filter(rs, (x: Recipe) => x.id != id)
  }

  lemma PermDeleteKeepsOthers(rs: seq<Recipe>, id: string, x: Recipe)
    ensures x in PermDeleteRecipe(rs, id) <==> x in rs && x.id != id
  {
    FilterMembers(rs, (x: Recipe) => x.id != id, x);
  }

  /** `emptyBin`: keeps only the active records. */
  function EmptyBin(rs: seq<Recipe>): (u: seq<Recipe>)
    ensures forall i :: 0 <= i < |u| ==> !u[i].deleted
  {
    FilterSatisfies(rs, IsActive);
    Filter(rs, IsActive)
  }

  /** After emptying the bin the catalog is the former active view and the bin is empty. */
  lemma EmptyBinLeavesActiveView(rs: seq<Recipe>)
    ensures EmptyBin(rs) == ActiveRecipes(rs)
    ensures ActiveRecipes(EmptyBin(rs)) == ActiveRecipes(rs)
    ensures DeletedRecipes(EmptyBin(rs)) == []
  {
    FilterIdempotent(rs, IsActive);
    FilterNone(EmptyBin(rs), IsDeleted);
  }
}
