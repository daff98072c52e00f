# Pharmacy catalogue: search, filter and product store

This project models the logic of a small React pharmacy-catalogue app. The app lists the products of several pharmacies and lets a visitor search them and filter them by category. A pharmacy can log in with a mock login, and then it sees and manages only its own products: it can add, edit and delete them.

The model covers five parts of the app:

- **Types** (`src/types/index.ts`): the product, review, pharmacy, authentication and filter records. The product field `type` is called `category` in the model, because `type` is a Dafny keyword.
- **Search** (`searchUtils.ts`): the text normaliser, and the match predicate built on it.
  - The normaliser works in three stages: lower-case, canonical decomposition, then removal of the combining marks U+0300..U+036F.
  - Case mapping and decomposition are given by a finite table. It covers ASCII and the Latin-1 letters.
  - `Text` models the string containment test that both the search and the login use.
- **Catalogue** and **Store** (`App.tsx`).
  - `Catalogue` holds the pure derivations: ownership scoping, the search-and-category filter, and the stock counters. It also holds the lists that an add, an edit and a delete produce.
  - `Store` is the screen component as a class. Its fields are the component's state; its methods are the event handlers. Each method changes only the fields it names.
- **EditForm** (`EditProductForm.tsx`): the edit form's working copy of a product, its per-field updates, and the merge `{...product, ...formData}` on submit.
- **Login** (`LoginForm.tsx`): the mock login, which maps an email to one of three pharmacies, and the form's state.

`Scenarios` states the model's results on two abbreviated entries of the demo catalogue (`mockData.ts`). The abbreviations are: the descriptions, pharmacy comments and reviews are empty; the location label stops at the pharmacy's name; and the cream's name drops "Visage".

Three things come from outside the modelled code and are passed in as parameters:

- the answer to the delete confirmation dialog;
- the new product's identifier, which the app takes from the clock;
- the data URL produced by the file reader.

An empty query does not match unconditionally. It matches whenever at least one field is given, and with no field `fields.some(...)` is false; see `Search.EmptyTermMatchesAnyField` and `Search.NoFieldNoMatch`. The catalogue always passes three fields, so there every product matches an empty query.

## Model

| member | source | states |
|---|---|---|
| Types.CategoryName | src/types/index.ts:5 | the label of each of the three categories is never the "Tous" (all) sentinel |
| Types.CategoryNameIsInjective | src/types/index.ts:5 | distinct categories have distinct labels, and each label is one of the three category names |
| Text.Includes | searchUtils.ts:14 | `String.prototype.includes`, also used by the mock login at LoginForm.tsx:27, 34 and 41: exact, case-sensitive, contiguous containment, with the empty needle contained everywhere; `IncludesIffOccurs`, `IncludesOccurrence` and `IncludesOnlyOwnCharacters` carry its properties |
| Text.IncludesIffOccurs | searchUtils.ts:14 | `includes` is true exactly when the needle occurs at some position of the text |
| Text.IncludesOccurrence | searchUtils.ts:14 | a piece found at a position is contained |
| Text.IncludesOnlyOwnCharacters | searchUtils.ts:14 | a needle holding a character the text lacks is not contained |
| Seqs.Filter | App.tsx:39-50 | `Array.filter`: the result is no longer than the input, and every kept element passes the test |
| Seqs.FilterMembers | App.tsx:39-50 | an element is in the filtered list exactly when it is in the input and passes the test |
| Seqs.FilterIsSubsequence | App.tsx:36 | filtering keeps the relative order: the result is a subsequence of the input |
| Seqs.SubsequenceIsTransitive | App.tsx:36 | a subsequence of a subsequence is a subsequence, so scoping then filtering keeps the order |
| Seqs.SubsequenceIsReflexive | App.tsx:31 | the unscoped list is a subsequence of itself |
| Seqs.FilterKeepsAll | App.tsx:39-50 | when every element passes, filtering returns the input unchanged |
| Seqs.FilterDropsAll | App.tsx:39-50 | when no element passes, filtering returns the empty list |
| Seqs.FilterAgrees | App.tsx:39-50 | two tests that agree on every element filter the same |
| Seqs.FilterTwice | App.tsx:36 | filtering by one test and then another is filtering by both |
| Seqs.FilterIsIdempotent | App.tsx:39-50 | filtering twice by the same test is filtering once |
| Seqs.FilterAppend | App.tsx:64 | the filter of a concatenation is the concatenation of the filters |
| Seqs.FilterPartition | App.tsx:117-118 | the kept elements and the dropped elements together number the input |
| Search.ToLowerChar | searchUtils.ts:4 | the result is never upper case, lower-case characters are unchanged, and marks stay marks |
| Search.Decomposition | searchUtils.ts:5 | an accented letter becomes its base letter, in the same case, followed by one combining mark; every other character stays as it is |
| Search.Lower | searchUtils.ts:4 | `toLowerCase` maps each character, keeping the length |
| Search.Decompose | searchUtils.ts:5 | after `normalize('NFD')` no decomposable letter remains, and no upper case appears if there was none |
| Search.StripMarks | searchUtils.ts:6 | the marks U+0300..U+036F are deleted: the result is no longer than the input and holds no mark; `StripMarksEffect` states that nothing else is deleted |
| Search.StripMarksEffect | searchUtils.ts:6 | a character is in the result exactly when it is in the input and is not a mark; the result keeps the input's order; its length plus the number of marks is the input's length |
| Search.NormalizeText | searchUtils.ts:2-7 | the three stages in the source's order; the output holds no mark. `NormalizeTextIsNormal`, `NormalizeTextIsIdempotent`, `NormalizeTextIgnoresCase` and `NormalizeTextAppend` carry its properties |
| Search.StripMarksKeepsNormal | searchUtils.ts:6 | removing marks from lower-case, decomposed text gives normal text |
| Search.NormalizeTextIsNormal | searchUtils.ts:2-7 | the normaliser's output has no upper-case letter, no decomposable letter and no combining mark |
| Search.NormalizeTextRemovesMarks | searchUtils.ts:6 | no character of U+0300..U+036F is left in the output |
| Search.DecomposeFixesNormal | searchUtils.ts:5 | decomposition leaves normal text unchanged |
| Search.NormalizeTextFixesNormal | searchUtils.ts:2-7 | normal text is its own normal form |
| Search.NormalizeTextIsIdempotent | searchUtils.ts:2-7 | normalising the normaliser's output changes nothing |
| Search.LowerIsIdempotent | searchUtils.ts:4 | lower-casing twice is lower-casing once |
| Search.NormalizeTextIgnoresCase | searchUtils.ts:3-4 | lower-casing a text beforehand does not change its normal form |
| Search.NormalizeTextDropsAccent | searchUtils.ts:3-6 | an accented letter in either case normalises to its lower-case base letter |
| Search.LowerAppend | searchUtils.ts:4 | lower-casing works character by character over a concatenation |
| Search.DecomposeAppend | searchUtils.ts:5 | decomposition works character by character over a concatenation |
| Search.NormalizeTextAppend | searchUtils.ts:2-7 | the normal form of a concatenation is the concatenation of the normal forms |
| Search.NormalizeTextAppend3 | searchUtils.ts:2-7 | the same for three pieces |
| Search.NormalizeTextOmits | searchUtils.ts:2-7 | a character that no character of the text turns into is absent from the text's normal form |
| Search.SearchMatch | searchUtils.ts:10-15 | true exactly when the normalised term is contained in the normal form of some field |
| Search.AnyFieldIncludes | searchUtils.ts:13-15 | `fields.some(...)`: true exactly when some field's normal form contains the needle; false when there is no field |
| Search.EmptyTermMatchesAnyField | searchUtils.ts:13-15 | an empty term matches as soon as at least one field is given |
| Search.NoFieldNoMatch | searchUtils.ts:13 | with no field, no term matches |
| Search.MarksOnlyTermMatchesAnyField | searchUtils.ts:11-15 | a term whose normal form is empty, such as one made only of combining marks, matches as soon as one field is given |
| Search.SearchMatchIsMonotone | searchUtils.ts:13 | adding fields never turns a match into a miss |
| Search.SearchMatchIgnoresOrder | searchUtils.ts:13 | reordering the fields never changes the result |
| Search.MissingCharacterMatchesNothing | searchUtils.ts:13-15 | a term whose normal form has a character that no field's normal form has matches nothing |
| Search.SearchMatchNormalizedTerm | searchUtils.ts:11 | normalising the term beforehand does not change the result |
| Search.AccentedCapitalMatchesBaseLetter | searchUtils.ts:3-6 | 'É' and 'e' both normalise to "e" |
| Search.NormalizeAccentedE | searchUtils.ts:3-6 | 'é' normalises to "e" |
| Search.NormalizeCapitalisedPrefix | searchUtils.ts:4 | "Parac" normalises to "parac" |
| Search.NormalizeUnaccentedSuffix | searchUtils.ts:2-7 | "tamol 500mg" is already normal |
| Search.NormalizeParacetamolTerm | searchUtils.ts:2-7 | "paracetamol" is already normal |
| Search.NormalizeParacetamolName | mockData.ts:6 | the catalogue name "Paracétamol 500mg" normalises to "paracetamol 500mg" |
| Search.PrefixOfFirstFieldMatches | searchUtils.ts:13-15 | a term whose normal form begins the first field's normal form matches |
| Search.ParacetamolIsPrefix | mockData.ts:6 | "paracetamol" begins "paracetamol 500mg" |
| Search.ParacetamolNormalFormsAgree | mockData.ts:6 | the term's normal form begins the name's normal form |
| Search.ParacetamolMatchesAccentedName | searchUtils.ts:10-15 | the term 'paracetamol' matches the name 'Paracétamol 500mg', whatever the other fields |
| Catalogue.TotalInStock | App.tsx:112-118 | the in-stock count never exceeds the product count, both taken over the same scoped list |
| Catalogue.OwnedBySession | App.tsx:36 | `product.pharmacyId === authState.pharmacy?.id`, as also at App.tsx:114: the session has a pharmacy and it is the product's owner; a missing pharmacy owns nothing. `FilteredProductsMembers`, `FilteredProductsAreOwned` and `SessionWithoutPharmacySeesNothing` carry its properties |
| Catalogue.IsOwner | App.tsx:400 | the detail view's owner test: signed in, and the product's owner is the session pharmacy; `FilteredProductsAreOwned` states it of every visible product |
| Catalogue.RelevantProducts | App.tsx:113-115 | signed in, the session pharmacy's products; signed out, the whole catalogue. The result is no longer than the catalogue, and signed in every entry is owned by the session |
| Catalogue.TotalProducts | App.tsx:118 | the size of the scoped list, never more than the catalogue size |
| Catalogue.SearchFields | App.tsx:41-44 | the three fields the search looks at: name, description and pharmacy location, in that order; `EmptySearchShortcutIsRedundant` and `Scenarios.ParacetamolNeedsAnO` use it |
| Catalogue.MatchesSearch | App.tsx:40-45 | an empty term, or the match predicate on name, description and location; `EmptySearchShortcutIsRedundant` shows the shortcut agrees with the predicate |
| Catalogue.MatchesType | App.tsx:47 | "Tous", or exactly the product's category label; `UnknownCategoryShowsNothing` covers every other selection |
| Catalogue.IsShown | App.tsx:39-49 | both tests; `FilteredProductsMembers` characterises the visible list by it |
| Catalogue.FilteredProducts | App.tsx:30-51 | scope, then keep what passes both tests, in order; every visible entry passes both. `FilteredProductsMembers`, `FilteredProductsIsSubsequence` and `DefaultFiltersShowRelevant` carry its properties |
| Catalogue.NewProduct | App.tsx:56-63 | the draft's fields with the new identifier, the owner's identifier and "name - address" label, rating 0 and no reviews; `NewProductHeadsOwnersList` states each of these fields |
| Catalogue.FilteredProductsMembers | App.tsx:30-51 | a product is visible exactly when it is in the catalogue, owned by the session pharmacy while signed in, matches the search and matches the category |
| Catalogue.FilteredProductsAreOwned | App.tsx:35-37 | while signed in, every visible product belongs to the session pharmacy |
| Catalogue.SessionWithoutPharmacySeesNothing | App.tsx:35-37 | a session flagged as signed in but without a pharmacy sees no product and counts none |
| Catalogue.FilteredProductsIsSubsequence | App.tsx:30-51 | the visible list keeps the catalogue's relative order |
| Catalogue.DefaultFiltersShowRelevant | App.tsx:39-49 | with an empty search and "Tous", the visible list is exactly the scoped list |
| Catalogue.UnknownCategoryShowsNothing | App.tsx:47 | a category selection that is neither "Tous" nor a category label shows nothing |
| Catalogue.EmptySearchShortcutIsRedundant | App.tsx:40-45 | the empty-term shortcut gives the same answer as the match predicate on the three searched fields |
| Catalogue.ScopingCommutesWithFilters | App.tsx:30-51 | scoping first and filtering first give the same visible list |
| Catalogue.FilteredProductsIsIdempotent | App.tsx:30-51 | deriving the visible list from the visible list changes nothing |
| Catalogue.FilteredWithinTotal | App.tsx:112-118 | the visible list is never longer than the product count shown beside it |
| Catalogue.OutOfStockCount | App.tsx:112-118 | products minus in-stock is the number of scoped products out of stock; signed out, the count is the whole catalogue |
| Catalogue.NewProductHeadsOwnersList | App.tsx:53-65 | an added product heads its owner's scoped list and the owner's count grows by one; the product carries the new identifier, the owner's identifier and the label "name - address", rating 0 and no reviews, and every other field is the draft's |
| Catalogue.ReplaceById | App.tsx:67-70 | the edited list has the length of the original |
| Catalogue.RemoveById | App.tsx:76 | the entries whose identifier differs, in order: no longer than the input, and no entry keeps the identifier; `RemoveByIdEffect` carries the rest |
| Catalogue.ReplaceByIdCons | App.tsx:68-70 | `map` handles the head, then the rest |
| Catalogue.ReplaceByIdEffect | App.tsx:67-70 | every entry with the edited identifier becomes the edited product, every other entry stays, and an unknown identifier changes nothing |
| Catalogue.ReplaceByIdKeepsScope | App.tsx:67-70 | an edit that keeps the owner commutes with scoping and keeps the owner's count |
| Catalogue.RemoveByIdEffect | App.tsx:74-76 | a delete leaves no entry with the identifier, keeps every other entry in order, and removes as many entries as had the identifier |
| Catalogue.RemoveAbsentIdIsNoop | App.tsx:76 | deleting an identifier no entry has changes nothing |
| Store.App.constructor | App.tsx:17-28 | the screen starts signed out, with no filter and nothing open |
| Store.App.Visible | App.tsx:30-51 | the visible list, recomputed from the state: every entry passes both filters, and it is never longer than the product count |
| Store.App.HandleAddProduct | App.tsx:53-65 | without a session pharmacy nothing changes; otherwise exactly one new product is put in front of the old list, and the owner's count grows by one |
| Store.App.HandleEditProduct | App.tsx:67-72 | the list becomes the replace-by-identifier of the old list, its length is kept, and the edit form closes |
| Store.App.HandleDeleteProduct | App.tsx:74-82 | when confirmed: the remove-by-identifier of the old list, and the detail view closes only if it showed that product; when not confirmed: nothing changes |
| Store.App.HandleSearchChange | App.tsx:84-86 | only the search term changes |
| Store.App.HandleTypeChange | App.tsx:88-90 | only the category selection changes |
| Store.App.HandleLogin | App.tsx:92-98 | the session opens with the pharmacy, and the login form closes |
| Store.App.HandleLogout | App.tsx:100-110 | signed out with no pharmacy, filters reset, every view closed, products kept; the whole catalogue is visible |
| Store.App.HandleLogoClick | App.tsx:120-126 | filters reset and every view closed, session and products kept; the visible list is the scoped list |
| Store.App.OpenLoginForm | App.tsx:178 | the login form opens |
| Store.App.CloseLoginForm | App.tsx:416 | the login form closes |
| Store.App.ViewProduct | App.tsx:329 | the clicked product's detail view opens |
| Store.App.CloseDetail | App.tsx:399 | the detail view closes |
| Store.App.StartEditing | App.tsx:327 | the edit form opens on the product |
| Store.App.CloseEditForm | App.tsx:390 | the edit form closes |
| Store.App.EditFromDetail | App.tsx:401-404 | the viewed product moves from the detail view to the edit form |
| Store.App.DeleteFromDetail | App.tsx:405-408 | the viewed product is deleted if confirmed, and the detail view closes either way |
| EditForm.Submit | EditProductForm.tsx:24-31 | the submitted product keeps the original identifier, owner, location, rating and reviews |
| EditForm.OrEmpty | EditProductForm.tsx:20-21 | the empty-string default of the form: a missing value, like an empty one, becomes the empty string; `UntouchedSubmit` states its effect |
| EditForm.InitialFormData | EditProductForm.tsx:13-22 | the form's starting values, read from the product; `SubmitThenReopen` and `UntouchedSubmit` relate it to the submitted product |
| EditForm.ApplyInput | EditProductForm.tsx:33-39 | one input event: the named field takes the new value; `InputChangesOneField` states that no other field changes |
| EditForm.SubmitThenReopen | EditProductForm.tsx:13-29 | opening the form on a submitted product shows exactly the submitted form values |
| EditForm.UntouchedSubmit | EditProductForm.tsx:20-29 | an untouched form submits the original product, except that a missing prescriber or image becomes the empty string |
| EditForm.InputChangesOneField | EditProductForm.tsx:33-46 | an input event changes the submitted product in its one field only; the checkbox changes only the stock flag |
| EditForm.EditStaysInOwnersView | EditProductForm.tsx:26-29 | with the edit handler, an edit keeps the owner's product count and keeps the edited product in the owner's scoped list |
| EditForm.EditProductForm.constructor | EditProductForm.tsx:13-22 | the form starts from the product's editable fields |
| EditForm.EditProductForm.HandleInputChange | EditProductForm.tsx:33-39 | the named field takes the new value |
| EditForm.EditProductForm.HandleCheckboxChange | EditProductForm.tsx:41-46 | only the stock flag changes |
| EditForm.EditProductForm.HandleFileLoaded | EditProductForm.tsx:52-57 | only the image field changes, to the loaded data URL |
| EditForm.EditProductForm.HandleSubmit | EditProductForm.tsx:24-31 | the handed-over product is the merge of product and form; it keeps the identifier and owner and reopens to the same form |
| Login.MockPharmacy | LoginForm.tsx:25-56 | the chosen pharmacy carries the submitted email, and its identifier is "1", "2" or "3" |
| Login.Centrale | LoginForm.tsx:28-33 | pharmacy "1", "Pharmacie Centrale", with the submitted email, also the default at LoginForm.tsx:50-55; `MockPharmacyChoice` states when it is chosen |
| Login.Marche | LoginForm.tsx:35-40 | pharmacy "2", "Pharmacie du Marché", with the submitted email |
| Login.Moderne | LoginForm.tsx:42-47 | pharmacy "3", "Pharmacie Moderne", with the submitted email |
| Login.MockPharmacyChoice | LoginForm.tsx:27-56 | "2" exactly when 'marche' occurs and 'centrale' does not; "3" exactly when only 'moderne' occurs; otherwise "1", the Centrale pharmacy |
| Login.UpperCaseIsNotFolded | LoginForm.tsx:34 | 'MARCHE' does not select pharmacy "2" |
| Login.AccentIsNotStripped | LoginForm.tsx:34 | 'marché' does not select pharmacy "2" |
| Login.LoginForm.constructor | LoginForm.tsx:11-15 | the form starts empty and idle |
| Login.LoginForm.HandleInputChange | LoginForm.tsx:63-69 | only the named field changes |
| Login.LoginForm.HandleSubmit | LoginForm.tsx:17-22 | the form becomes busy and the delayed login keeps the email as submitted |
| Login.LoginForm.CompleteLogin | LoginForm.tsx:22-60 | the pharmacy handed to the login handler is the one chosen for the submitted email, and the form is idle again |
| Scenarios.FilterPair | App.tsx:39 | filtering a two-element list keeps each element that passes, in order |
| Scenarios.ParacetamolFindsFirstEntry | mockData.ts:6 | any term that normalises to 'paracetamol' finds the entry 'Paracétamol 500mg' |
| Scenarios.NoOInCremeName | mockData.ts:36 | the normal form of 'Crème Hydratante' has no 'o' |
| Scenarios.NoOInMarcheLocation | mockData.ts:39 | the normal form of 'Pharmacie du Marché' has no 'o' |
| Scenarios.ParacetamolNeedsAnO | searchUtils.ts:10-15 | such a term misses every product whose searched fields have no 'o' |
| Scenarios.ParacetamolMissesSecondEntry | mockData.ts:35-45 | such a term misses the cream entry |
| Scenarios.SearchScenario | App.tsx:30-51 | signed out, such a term shows exactly the paracetamol entry |
| Scenarios.XyzMissesProduct | searchUtils.ts:10-15 | the search 'xyz' misses every product whose searched fields have no 'x' in any case or accent |
| Scenarios.NormalizeXyz | searchUtils.ts:2-7 | 'xyz' is its own normal form |
| Scenarios.NoXInParacetamolName | mockData.ts:6 | the normal form of 'Paracétamol 500mg' has no 'x' |
| Scenarios.NoXInCentraleLocation | mockData.ts:9 | the normal form of 'Pharmacie Centrale' has no 'x' |
| Scenarios.NoXInCremeName | mockData.ts:36 | the normal form of 'Crème Hydratante' has no 'x' |
| Scenarios.NoXInMarcheLocation | mockData.ts:39 | the normal form of 'Pharmacie du Marché' has no 'x' |
| Scenarios.NoMatchScenario | App.tsx:30-51 | signed out, the search 'xyz' with every category shows no entry |
| Scenarios.SearchParacetamolScenario | App.tsx:30-51 | signed out, 'paracetamol' shows exactly the paracetamol entry |
| Scenarios.CategoryScenario | App.tsx:47 | signed out, the 'Cosmétique' category shows exactly the cream entry |
| Scenarios.OwnerScenario | App.tsx:35-37 | signed in as pharmacy "2", only its own entry is in scope and counted |
| Scenarios.MarcheEmailSelectsMarket | LoginForm.tsx:34-40 | the email 'marche' selects pharmacy "2" |
| Scenarios.ForeignEditHidesProduct | App.tsx:67-70 | an edit by pharmacy "1" under the identifier of pharmacy "2"'s product drops pharmacy "2"'s count from 1 to 0 |
| Scenarios.LoginScenario | LoginForm.tsx:17-69 | typing 'marche' and submitting hands pharmacy "2" to the login handler |
| Scenarios.SignIn | App.tsx:92-126 | logging in as pharmacy "2", searching, then clicking the logo leaves the products as they were, the session open and the filters at their defaults |
| Scenarios.SessionScenario | App.tsx:92-126 | logging in as pharmacy "2" and clicking the logo shows its entry only; logging out shows the whole catalogue |

## Left out

- Unicode case mapping and normalisation beyond the table. The model maps only A..Z and the Latin-1 letters, and decomposes only the Latin-1 accented letters. The rest of Unicode, including multi-character case mappings and letters outside Latin-1, is not modelled.
- Floating-point values: price and rating are opaque `real` values. `parseFloat(value) || 0` in the number input is not modelled: the price input arrives already parsed. Price formatting and the star rendering are presentation.
- Timing and asynchrony: the one-second delay of the mock login is split into `HandleSubmit` and `CompleteLogin`. The model does not capture overlapping submits or a form closed before the timer fires.
- Browser input/output:
  - `window.confirm`, `Date.now()` and the `FileReader` result are parameters;
  - the file-input click and image load errors are not modelled.
- `useMemo`: the visible list is the function `Store.App.Visible`, recomputed from the state.
- Rendering: JSX, styling, category badge colours and image URL fallbacks are presentation.
- Identifier uniqueness: the app never checks it, and the model does not assume it. Edit and delete act on every entry with the identifier.
- Catalogue.ReplaceByIdKeepsScope and EditForm.EditStaysInOwnersView hold only when every entry that shares the edited identifier also shares its owner. The app does not enforce this. `Scenarios.ForeignEditHidesProduct` shows that the hypothesis is needed: an edit under another pharmacy's identifier takes that pharmacy's product out of its view.
- The add-product form component is not part of this model. The product it hands over is the `ProductDraft` input of `Store.App.HandleAddProduct`.
- The password is stored by the login form but never checked, so it plays no part in the choice of pharmacy.
