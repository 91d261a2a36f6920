# Meal planner core in Dafny

This project models the part of a small recipe and meal-plan web app that has behaviour beyond
rendering:

- the shopping-list engine `generateShoppingList`. It walks a plan day by day, main dish before
  side dish. It adds 5 g of 小米辣 for every category A dish when `autoSpicyA` is on. It hides
  the aromatics 葱, 姜, 蒜, 大葱 and 红葱头 unless `showGarlicGinger` is on. It infers a
  quantity from the ingredient name. It merges entries by trimmed name into an insertion-ordered
  map;
- the recipe catalog with its bin (`useRecipes`);
- the two plan generators: the manual menu and the random N-day plan;
- the small state machines of the pages: the shopping list page (ticking items, swapping a
  dish), the admin form, the settings page and the home page's hidden double tap;
- the defaults and the 28 seed recipes.

One module per source file:

| module | source file |
|---|---|
| `Types` | types.ts |
| `Constants` | constants.ts |
| `Storage` | services/storage.ts, the catalog |
| `ShoppingAggregation` | services/storage.ts, the list engine |
| `ManualMode` | pages/ManualMode.tsx |
| `PlanMode` | pages/PlanMode.tsx |
| `ShoppingListPage` | pages/ShoppingList.tsx |
| `Admin` | pages/Admin.tsx |
| `SettingsPage` | pages/Settings.tsx |
| `Home` | pages/Home.tsx |

Three more modules support them:

- `Strings`: JavaScript's `trim`, `includes` and `\s`, and the decimal rendering of a number.
- `Sequences`: a filter and small sequence facts.
- `Scenarios`: concrete facts about the seed catalog.

How the model is built:

- Persistence (`localStorage`) becomes the fields of a `Storage.Store` object.
- Pages are classes whose fields are the React state.
- Their handlers are methods that change those fields and the store.
- `generateShoppingList` is an imperative method over a `map<string, ShoppingItem>` plus the key
  insertion order. It is proved equal to a closed-form reference, `ShoppingAggregation.ShoppingList`.
  The properties of the list are lemmas about that reference.

Where the code does something one might not expect, the model follows the code:
- an egg name contains the meat keyword 鸡, so the egg quantity is never used;
- `unit` and `isSpicy` come from the first contribution only. An A01 plan therefore lists 小米辣 as 6 g: the automatic 5 g plus the dish's own "1份";
- the manual selection keeps catalog order, not click order;
- `addRecipe` does not check for a duplicate id;
- the aromatics rule looks at the untrimmed name, so " 葱" is listed.

## Model

| member | source | states |
|---|---|---|
| Storage.Store.constructor | services/storage.ts:13-48 | Nothing stored: the recipes slot is the seed catalog, the settings are the defaults, and the current plan is empty. |
| Storage.Store.SaveRecipes | services/storage.ts:22-26 | Writes the recipes slot and leaves the other slots alone. |
| Storage.Store.SaveSettings | services/storage.ts:35-37 | Writes the settings slot and leaves the other slots alone. |
| Storage.Store.SaveCurrentPlan | services/storage.ts:46-48 | Writes the plan slot and leaves the other slots alone. |
| Storage.ActiveRecipes | services/storage.ts:135 | `activeRecipes`: no record of the view is deleted. The iff and the order are in `ViewsPartition` and `ViewsKeepOrder`. |
| Storage.DeletedRecipes | services/storage.ts:136 | `deletedRecipes`: every record of the view is deleted. The iff and the order are in `ViewsPartition` and `ViewsKeepOrder`. |
| Storage.OfCategory | pages/PlanMode.tsx:17-19 | Every record of a category bucket has that category. |
| Storage.ViewsPartition | services/storage.ts:135-136 | The active and deleted views split the catalog as multisets. A record is in the active view exactly when it is in the catalog and not deleted, and in the bin exactly when it is deleted. |
| Storage.ViewsKeepOrder | services/storage.ts:135-136 | Both views distribute over concatenation, so catalog order is kept. |
| Storage.AddRecipe | services/storage.ts:137-140 | The new record is appended after the untouched old list, with no duplicate-id check. |
| Storage.AddJoinsItsView | services/storage.ts:135-140 | A new record joins the end of the view its flag selects; the other view is unchanged. |
| Storage.UpdateRecipe | services/storage.ts:141-144 | The ids stay as they were, position by position. |
| Storage.UpdateReplacesMatching | services/storage.ts:141-144 | Every record with the id becomes the new record; every other record is unchanged; the length is kept. |
| Storage.UpdateUnknownIdIsNoOp | services/storage.ts:141-144 | Updating with an id that no record carries changes nothing. |
| Storage.SetDeleted | services/storage.ts:145-152 | Setting the bin flag keeps the ids in place. |
| Storage.DeleteRecipe | services/storage.ts:145-148 | The ids stay in place and every record with the id is in the bin. That nothing else changes is `SetDeletedChangesOnlyTheFlag`. |
| Storage.RestoreRecipe | services/storage.ts:149-152 | The ids stay in place and no record with the id is in the bin. That nothing else changes is `SetDeletedChangesOnlyTheFlag`. |
| Storage.SetDeletedChangesOnlyTheFlag | services/storage.ts:145-152 | Delete/restore set the flag of the matching records only. Length, order, every other field and every other record are unchanged. |
| Storage.SetDeletedIdempotent | services/storage.ts:145-152 | Deleting or restoring twice is the same as doing it once. |
| Storage.RestoreUndoesDelete | services/storage.ts:145-152 | Restoring an id just deleted gives back the catalog, when no record with that id was already in the bin. |
| Storage.DeleteMovesToBin | services/storage.ts:135-148 | After a delete, the active view loses exactly the records with that id, and the bin gains them with the flag set. |
| Storage.PermDeleteRecipe | services/storage.ts:153-156 | No remaining record carries the id. |
| Storage.PermDeleteKeepsOthers | services/storage.ts:153-156 | Exactly the records with another id remain. |
| Storage.EmptyBin | services/storage.ts:157-160 | No remaining record is deleted. |
| Storage.EmptyBinLeavesActiveView | services/storage.ts:135-160 | After emptying the bin, the catalog is the former active view, the active view is unchanged, and the bin is empty. |
| Constants.ParseIng | constants.ts:11 | One ingredient per name, same length and order. |
| Constants.Names | pages/Admin.tsx:31 | The names of an ingredient list, one per ingredient. |
| Constants.ParseIngRoundTrip | constants.ts:11 | `parseIng` and taking the names are mutually inverse. |
| Constants.Seed | constants.ts:13-47 | A seed record carries its id and category, is not deleted, has no creation time, and lists the given ingredient names. |
| Constants.SeedA01 | constants.ts:15 | The first seed record is A01 冬瓜焖肉 with 冬瓜, 五花肉, 小米辣. |
| Constants.SeedB05 | constants.ts:30 | The fourteenth seed record is B05 可乐鸡翅 with 鸡翅, 可乐, 葱 and link B站. |
| Constants.SeedIdsNameTheirCategory | constants.ts:15-46 | Every seed id has three characters, the first being its recipe's category letter. |
| Constants.SeedCodesIncrease | constants.ts:15-46 | The seed ids, in catalog order, are A01–A09, B01–B11, C01–C08, and their codes strictly increase. |
| Constants.SeedIdsDistinct | constants.ts:15-46 | The seed ids are pairwise distinct. |
| Scenarios.SeedCatalogCounts | constants.ts:13-47 | All 28 seed records are active: 9 of category A, 11 of B and 8 of C. |
| ShoppingAggregation.InferQuantity | services/storage.ts:88-108 | Every inferred amount is positive. |
| ShoppingAggregation.QuantityByClass | services/storage.ts:92-108 | Meat names take 350 g or 500 g. Other names with a vegetable keyword take 400 g or 600 g. Anything else takes one portion. |
| ShoppingAggregation.LargerHouseholdBuysMore | services/storage.ts:96-108 | Both household sizes give the same unit. In every scaled class, 3-4 people get more than 1-2; the fallback portion is 1 for both. |
| ShoppingAggregation.EggNamesTakeMeatQuantity | services/storage.ts:92-99 | Any name containing 鸡蛋 contains 鸡 and takes the meat amount. |
| ShoppingAggregation.EggQuantityUnreachable | services/storage.ts:99-101 | No name is ever given the egg unit 个. |
| ShoppingAggregation.GenerateShoppingList | services/storage.ts:52-119 | The map-mutating walk over the plan returns exactly the reference list `ShoppingList(plans, settings)`. |
| ShoppingAggregation.ShoppingList | services/storage.ts:52-119 | The reference: the merged entries of the surviving contributions. It has at most one entry per name, all unchecked. Its content is `EntryIsMerge`, `FirstEncounterOrder` and `ListedNames`. |
| ShoppingAggregation.AddToMap | services/storage.ts:55-76 | Hidden aromatics are skipped. Otherwise the entry under the trimmed name grows, or a new entry joins the end of the order. The map keeps representing the merge of every surviving contribution so far. |
| ShoppingAggregation.AddIngredients | services/storage.ts:87-114 | Each ingredient adds its inferred contribution, in order. |
| ShoppingAggregation.AddDish | services/storage.ts:80-114 | A category A dish with `autoSpicyA` adds the chili before its own ingredients. |
| ShoppingAggregation.AddSlot | services/storage.ts:79-80 | An empty slot contributes nothing. |
| ShoppingAggregation.MergeExisting | services/storage.ts:62-65 | Adding to an existing entry sums the amount and appends one trace. The map still represents the merged contributions. |
| ShoppingAggregation.MergeNew | services/storage.ts:66-74 | A new key creates an unchecked entry with the contribution's unit, flag and trace, at the end of the order. |
| ShoppingAggregation.ValuesInOrder | services/storage.ts:118 | Reading the map's values in insertion order gives the merged entries. |
| ShoppingAggregation.Aggregate | services/storage.ts:61-75 | At most one entry per trimmed name. Entries follow the keys in first-encounter order, all unchecked. |
| ShoppingAggregation.EntryIsMerge | services/storage.ts:61-74 | An entry's amount is the sum of its contributions. It has one `${amount}${unit}` trace per contribution, in order. Its unit and spicy flag come from the first contribution under its name. |
| ShoppingAggregation.FirstEncounterOrder | services/storage.ts:66-118 | Entries appear in the order in which their names are first met. |
| ShoppingAggregation.NamesAreTrimmedKeys | services/storage.ts:61-68 | A name is listed exactly when some surviving contribution trims to it. |
| ShoppingAggregation.ContributionOrigin | services/storage.ts:78-114 | Each contribution is the automatic chili, or comes from an ingredient of a dish in the plan. |
| ShoppingAggregation.NameContributes | services/storage.ts:78-114 | Every ingredient of every planned dish contributes. |
| ShoppingAggregation.ListedNames | services/storage.ts:57-61 | Apart from the chili, a name is listed exactly when some ingredient trims to it and, with aromatics hidden, is not itself written as an aromatic. The rule compares the untrimmed name. |
| ShoppingAggregation.HiddenAromaticsNeverListed | services/storage.ts:57 | With aromatics hidden and blank-free names, no aromatic is listed. |
| ShoppingAggregation.ChiliPerCategoryADish | services/storage.ts:83-85 | The chili contribution occurs once per category A dish when `autoSpicyA` is on, and never when it is off. |
| ShoppingAggregation.KeptMembers | services/storage.ts:57 | A contribution survives exactly when it passes the aromatics rule. |
| ShoppingAggregation.DayOrderKeepsTotals | services/storage.ts:78 | Swapping two blocks of days changes neither the total merged under a name nor whether the shopping list lists it. |
| ShoppingAggregation.DayOrderKeepsAmounts | services/storage.ts:61-78 | An entry of the list for one order of the two blocks has the same amount as the entry with that name for the other order. |
| ShoppingAggregation.ListsIsKey | services/storage.ts:66-118 | A name is listed exactly when it is one of the distinct keys. |
| Scenarios.A01Contributions | constants.ts:15 | A plan holding only A01, under the defaults, contributes, in order: the chili, 冬瓜 400 g, 五花肉 350 g, 小米辣 1份. |
| Scenarios.A01ShoppingList | services/storage.ts:83-113 | That plan's list is 小米辣 6 g (traces 5g, 1份, spicy), then 冬瓜 400 g, then 五花肉 350 g. |
| Scenarios.B05Contributions | services/storage.ts:57-107 | With B05 alone under the defaults, there is no chili and 葱 is hidden. |
| Scenarios.B05ShoppingList | constants.ts:30 | B05 alone lists 鸡翅 350 g, then 可乐 1份. |
| ManualMode.Toggled | pages/ManualMode.tsx:15-20 | Membership of the id flips; every other id keeps its membership. |
| ManualMode.ToggleTwiceRestores | pages/ManualMode.tsx:15-20 | Toggling an id twice restores the selection. |
| ManualMode.SelectedMembers | pages/ManualMode.tsx:23 | The selection is the ticked active recipes. |
| ManualMode.Selected | pages/ManualMode.tsx:23 | Every selected recipe is ticked. The iff is `SelectedMembers`. |
| ManualMode.MainsAreSelectedAThenB | pages/ManualMode.tsx:24-52 | The mains are exactly the ticked active A and B dishes, with every A before every B. |
| ManualMode.Mains | pages/ManualMode.tsx:52 | No main is a C dish. The iff and the A-before-B order are `MainsAreSelectedAThenB`. |
| ManualMode.SidePoolIsCategoryC | pages/ManualMode.tsx:26-36 | The side pool holds only active C dishes. When any C dish is ticked, it is exactly the ticked C dishes. Otherwise it is `[allC[draw]]`, the one dish drawn from all active C dishes. It is empty only when no active C dish exists. |
| ManualMode.SidePool | pages/ManualMode.tsx:29-36 | Definition of `finalC`; its properties are in `SidePoolIsCategoryC`. |
| ManualMode.DistributeMains | pages/ManualMode.tsx:64-72 | The loop builds one day per main, in order. |
| ManualMode.BuildMenu | pages/ManualMode.tsx:22-73 | The method yields the plans the menu rule defines. |
| ManualMode.MenuPlans | pages/ManualMode.tsx:52-73 | Definition of the menu; its properties are in `MenuEmptyExactlyWhenNothingToPlan`, `SideOnlyMenu`, `RoundRobinMenu` and `MenuDishesFromPools`. |
| ManualMode.DayLabel | pages/ManualMode.tsx:68 | Definition of the day label; `RoundRobinMenu` and `LaterLabelsDistinct` state its use. |
| ManualMode.MenuEmptyExactlyWhenNothingToPlan | pages/ManualMode.tsx:55-78 | The menu is empty exactly when no main is ticked and no active C dish exists. |
| ManualMode.SideOnlyMenu | pages/ManualMode.tsx:55-61 | With no mains, the menu is one side-only day labelled today, using the first pool dish even when several C dishes are ticked. |
| ManualMode.RoundRobinMenu | pages/ManualMode.tsx:63-72 | With mains, day i serves main i and side i mod the pool size, or no side when the pool is empty. |
| ManualMode.LaterLabelsDistinct | pages/ManualMode.tsx:68 | The labels `Day ${i + 1}` of later days are pairwise distinct. |
| ManualMode.MenuDishesFromPools | pages/ManualMode.tsx:52-72 | Every main comes from the mains and every side from the side pool. |
| ManualMode.MenuUsesActiveRecipes | pages/ManualMode.tsx:9-23 | No deleted recipe reaches a menu, and every main is ticked. |
| ManualMode.ManualModePage.ToggleSelect | pages/ManualMode.tsx:15-20 | The page's selection becomes the toggled set. |
| ManualMode.ManualModePage.GenerateMenu | pages/ManualMode.tsx:22-82 | An empty menu alerts and saves nothing. Otherwise the menu is saved as the current plan and the list page opens. |
| PlanMode.PlannedDays | pages/PlanMode.tsx:21-45 | The plan has exactly `days` entries. |
| PlanMode.GeneratePlanDays | pages/PlanMode.tsx:21-45 | The `for` loop builds the plan day by day. |
| PlanMode.PlanDay | pages/PlanMode.tsx:22-44 | Definition of one day of the plan; its properties are in `PlanSlotsFromPools` and `EqualDrawsRepeatDishes`. |
| PlanMode.MainPoolMembers | pages/PlanMode.tsx:17-29 | The main pool holds exactly the active dishes of the categories the preference admits. |
| PlanMode.MainPool | pages/PlanMode.tsx:26-29 | Every dish of the main pool is of a category the preference admits. The iff is `MainPoolMembers`. |
| PlanMode.PlanSlotsFromPools | pages/PlanMode.tsx:31-38 | A main is an admitted active dish, and is missing exactly when the pool is empty. A side is an active C dish, and is missing exactly when there is none. |
| PlanMode.EqualDrawsRepeatDishes | pages/PlanMode.tsx:32-37 | Draws are independent per day: equal draws give equal dishes. |
| PlanMode.PlanLabels | pages/PlanMode.tsx:41 | With several days the labels `第 ${i + 1} 天` are pairwise distinct. |
| PlanMode.SingleDayLabel | pages/PlanMode.tsx:41 | A one-day plan is labelled today. |
| PlanMode.PlanLabel | pages/PlanMode.tsx:41 | Definition of the label; its properties are in `PlanLabels` and `SingleDayLabel`. |
| PlanMode.PlanModePage.GeneratePlan | pages/PlanMode.tsx:15-49 | The plan is always saved, even with empty slots; nothing else in the store changes. |
| PlanMode.PlanModePage.SetDays | pages/PlanMode.tsx:69 | Sets the number of days and keeps the preference and the store. |
| PlanMode.PlanModePage.SetPreference | pages/PlanMode.tsx:93 | Sets the preference and keeps the number of days and the store. |
| ShoppingListPage.ToggleItemCheck | pages/ShoppingList.tsx:33-37 | `checked` flips on the items with that name; every other field and item is unchanged. |
| ShoppingListPage.ToggleItemCheckTwice | pages/ShoppingList.tsx:33-37 | Toggling twice is the identity. |
| ShoppingListPage.SwapPoolMembers | pages/ShoppingList.tsx:62-66 | The side slot offers C dishes, the main slot A and B dishes, and no slot every active recipe. |
| ShoppingListPage.SwapPool | pages/ShoppingList.tsx:62-66 | The side slot offers only C dishes and the main slot none. The iff is `SwapPoolMembers`. |
| ShoppingListPage.SwapDish | pages/ShoppingList.tsx:42-48 | Only the chosen slot of the chosen day changes. |
| ShoppingListPage.SwapBackRestores | pages/ShoppingList.tsx:42-48 | Swapping back to the former dish restores the plan. |
| ShoppingListPage.ShoppingListPage.Load | pages/ShoppingList.tsx:19-31 | An empty saved plan redirects to manual mode. Otherwise the plan is shown with its list freshly generated. |
| ShoppingListPage.ShoppingListPage.ToggleCheck | pages/ShoppingList.tsx:33-37 | The items become the toggled items; nothing else changes. |
| ShoppingListPage.ShoppingListPage.OpenSwapModal | pages/ShoppingList.tsx:55-59 | Records the day and slot being edited and opens the modal. |
| ShoppingListPage.ShoppingListPage.HandleSwapDish | pages/ShoppingList.tsx:39-53 | With no day or slot being edited, nothing happens. Otherwise the swapped plan is saved, the list is regenerated with every item unchecked, and the modal closes. The day and slot being edited stay as they were. |
| Admin.TokenLength | pages/Admin.tsx:44 | The leading run of non-separators ends at a separator or at the end of the text. |
| Admin.Tokens | pages/Admin.tsx:44 | Definition of `split(/[,，\s]+/).filter(Boolean)`; its properties are in `TokensWellFormed`, `TokensKeepText` and `TokensOfJoin`. |
| Admin.Join | pages/Admin.tsx:31 | Definition of `join(' ')`; `TokensOfJoin` states that splitting inverts it. |
| Admin.TokensWellFormed | pages/Admin.tsx:44 | Every token is non-empty and free of `,`, `，` and whitespace. |
| Admin.TokensKeepText | pages/Admin.tsx:44 | The tokens concatenate to the text minus its separators, so nothing is lost and order is kept. |
| Admin.TokensOfJoin | pages/Admin.tsx:31-44 | Joining non-empty separator-free names with spaces and splitting again gives back the names. |
| Admin.FormIngredients | pages/Admin.tsx:44 | Every ingredient read from the form has a non-empty, separator-free name. |
| Admin.LastFour | pages/Admin.tsx:10 | `slice(-4)` keeps the last four characters, or the whole of a shorter text. |
| Admin.GenId | pages/Admin.tsx:10 | A generated id is the category letter followed by `LastFour` of the decimal timestamp: one to four digits, and four digits once the timestamp reaches 1000. |
| Admin.EditedRecipe | pages/Admin.tsx:46-53 | Editing keeps the id, bin flag and creation time, and takes the form's name, category, ingredients and link. |
| Admin.NewRecipe | pages/Admin.tsx:55-62 | A new record is active, has no creation time, and has an id that starts with its category letter. |
| Admin.EditUnchangedKeepsRecipe | pages/Admin.tsx:26-53 | Opening a recipe that has a link and saving the form untouched gives back the same record, when its ingredient names are non-empty and separator-free. |
| Admin.AdminPage.OpenEdit | pages/Admin.tsx:26-41 | Loads the recipe into the form, with a missing link as "", or resets the form to "", A, "", ""; the form opens either way. |
| Admin.AdminPage.SetView | pages/Admin.tsx:90-96 | Switches between the active list and the bin and changes nothing else. |
| Admin.AdminPage.HandleSave | pages/Admin.tsx:43-65 | Replaces the edited record by id or appends a new one, then closes the form. |
| Admin.SavedCatalog | pages/Admin.tsx:43-63 | Definition of the catalog written on save; `UpdateReplacesMatching`, `AddRecipe` and `EditedRecipe`/`NewRecipe` state its parts. |
| Admin.AdminPage.HandleDelete | pages/Admin.tsx:67-71 | Moves the recipe to the bin only when confirmed. |
| Admin.AdminPage.HandleRestore | pages/Admin.tsx:150 | Restores from the bin without asking. |
| Admin.AdminPage.HandlePermDelete | pages/Admin.tsx:153 | Purges the id only when confirmed. |
| Admin.AdminPage.HandleEmptyBin | pages/Admin.tsx:73-77 | Empties the bin only when confirmed. |
| SettingsPage.Toggle | pages/Settings.tsx:17-19 | Negates exactly that flag and keeps every other field. |
| SettingsPage.ToggleTwiceRestores | pages/Settings.tsx:17-19 | Toggling the same flag twice restores the settings. |
| SettingsPage.TogglesCommute | pages/Settings.tsx:17-19 | Toggles of two flags commute. |
| SettingsPage.SelectPeopleCount | pages/Settings.tsx:38-41 | Sets the people count and keeps every flag. |
| SettingsPage.SettingsPageState.constructor | pages/Settings.tsx:10 | The working copy starts as the stored settings. |
| SettingsPage.SettingsPageState.ToggleFlag | pages/Settings.tsx:17-19 | The working copy becomes the toggled settings; the store is not written. |
| SettingsPage.SettingsPageState.ChoosePeopleCount | pages/Settings.tsx:41 | The working copy takes the chosen people count; the store is not written. |
| SettingsPage.SettingsPageState.HandleSave | pages/Settings.tsx:12-15 | The only write, which persists the whole working copy. |
| Home.Click | pages/Home.tsx:10-21 | With nothing stored, a click records the time and does not navigate. With a time stored, a click navigates exactly when under 500 ms have passed, and always clears the store. |
| Home.Clicks | pages/Home.tsx:10-21 | One result per click. From a cleared state the first click never opens the page, and two successive clicks never both open it. |
| Home.ClicksPairUp | pages/Home.tsx:13-20 | From a cleared state, the first click of each pair never navigates; the second navigates exactly when it follows the first by under 500 ms. |
| Home.HomePage.HandleLogoClick | pages/Home.tsx:10-21 | The page's stored click time and its navigation follow `Click`. |

## Left out

- JSX rendering, components/UI.tsx and App.tsx routing: presentation only.
- `localStorage`, JSON and the `recipesUpdated` event (services/storage.ts:13-48, 121-131): modelled as the fields of `Storage.Store`. Pages are assumed to see the latest catalog.
- `navigate`, `alert` and `window.confirm`: modelled as outcome tags and as a `confirmed` parameter.
- `Math.random()`: modelled as an injected index into the pool it draws from. `requires` clauses (`DrawFits`, `DrawsFit`) state that `floor(random * len)` is below `len`.
- `new Date().toLocaleDateString()` and `Date.now()`: modelled as the opaque parameters `today` and `now`.
- The `cloudSync` setting: it has no behaviour, so it is only toggled and stored.
- The unused `uuid` import of pages/Admin.tsx.
- The optional `amount`, `unit` and `checked` fields of `Ingredient`: no code reads them.
- An absent `deleted` flag reads as `false`; `link` and `createdAt` are `Option`s.
- `toggle` on the non-boolean key `peopleCount` is not modelled; the page never calls it that way. The page toggles only `autoSpicyA` and `showGarlicGinger` (pages/Settings.tsx:64, 77). `SettingsPage.Flag` also admits `cloudSync`, which the key type allows.
- React's batching of state setters: each handler is one atomic state transition.
- ShoppingListPage.ShoppingListPage.Load: modelled for the first render only (no day being edited), which is when the effect runs.
- `Admin.GenId`: the timestamp is assumed non-negative, as `Date.now()` is after 1970.
- The rendering of `${amount}` for numbers: amounts are natural numbers here. No fractional amounts arise, since every inferred amount and the chili are integers.
