/** The catalogue screen's derived values and the pure part of its state
    changes (App.tsx): ownership scoping, the search-and-category filter, the
    stock counters, and the new list an add, an edit or a delete produces. */
module Catalogue {
  import opened Types
  import opened Seqs
  import opened Search

  // ----- Ownership scoping -----

  /** The open session's pharmacy owns the product. A session without a
      pharmacy owns nothing: no identifier equals a missing one. */
  predicate OwnedBySession(p: Product, auth: AuthState) {
    auth.pharmacy.Some? && p.pharmacyId == auth.pharmacy.value.id
  }

  /** Whether the detail view offers the owner's actions for a product. */
  predicate IsOwner(p: Product, auth: AuthState) {
    auth.isAuthenticated && OwnedBySession(p, auth)
  }

  /** The products the screen is about: the session pharmacy's own products
      while a session is open, the whole catalogue otherwise. */
  function RelevantProducts(products: seq<Product>, auth: AuthState): (r: seq<Product>)
    ensures |r| <= |products|
    ensures auth.isAuthenticated ==> forall i | 0 <= i < |r| :: OwnedBySession(r[i], auth)
  {
    if auth.isAuthenticated then Filter(products, p => OwnedBySession(p, auth)) else products
  }

  // ----- The search and category filters -----

  /** The fields the search looks at, in this order. */
  function SearchFields(p: Product): seq<string> {
    [p.name, p.description, p.pharmacyLocation]
  }

  predicate MatchesSearch(p: Product, searchTerm: string) {
    searchTerm == "" || SearchMatch(searchTerm, SearchFields(p))
  }

  /** The selection is "all" or exactly the product's category label. */
  predicate MatchesType(p: Product, selectedType: string) {
    selectedType == All || CategoryName(p.category) == selectedType
  }

  predicate IsShown(p: Product, filters: FilterState) {
    MatchesSearch(p, filters.searchTerm) && MatchesType(p, filters.selectedType)
  }

  /** The visible list: scope first, then keep what passes both filters, in order. */
  function FilteredProducts(products: seq<Product>, filters: FilterState, auth: AuthState): (r: seq<Product>)
    ensures forall i | 0 <= i < |r| :: IsShown(r[i], filters)
  {
    Filter(RelevantProducts(products, auth), p => IsShown(p, filters))
  }

  // ----- Counters -----

  function TotalProducts(products: seq<Product>, auth: AuthState): (n: nat)
    ensures n <= |products|
  {
    |RelevantProducts(products, auth)|
  }

  /** The in-stock count never exceeds the product count it sits beside. */
  function TotalInStock(products: seq<Product>, auth: AuthState): (n: nat)
    ensures n <= TotalProducts(products, auth)
  {
    |Filter(RelevantProducts(products, auth), (p: Product) => p.inStock)|
  }

  // ----- What the visible list is -----

  /** A product is visible exactly when it is in the catalogue, in scope, and
      passes both filters. */
  lemma FilteredProductsMembers(products: seq<Product>, filters: FilterState, auth: AuthState, p: Product)
    ensures p in FilteredProducts(products, filters, auth) <==>
      p in products && (auth.isAuthenticated ==> OwnedBySession(p, auth)) && IsShown(p, filters)
  {
    FilterMembers(RelevantProducts(products, auth), p => IsShown(p, filters), p);
    if auth.isAuthenticated {
      FilterMembers(products, q => OwnedBySession(q, auth), p);
    }
  }

  /** While a session is open, every visible product belongs to the session pharmacy. */
  lemma FilteredProductsAreOwned(products: seq<Product>, filters: FilterState, auth: AuthState)
    requires auth.isAuthenticated
    ensures forall i | 0 <= i < |FilteredProducts(products, filters, auth)| ::
      IsOwner(FilteredProducts(products, filters, auth)[i], auth)
  {
    var r := FilteredProducts(products, filters, auth);
    forall i | 0 <= i < |r| ensures IsOwner(r[i], auth) {
      FilteredProductsMembers(products, filters, auth, r[i]);
    }
  }

  /** A session whose pharmacy is missing sees nothing. */
  lemma SessionWithoutPharmacySeesNothing(products: seq<Product>, filters: FilterState, auth: AuthState)
    requires auth.isAuthenticated && auth.pharmacy.None?
    ensures FilteredProducts(products, filters, auth) == []
    ensures TotalProducts(products, auth) == 0
  {
    FilterDropsAll(products, p => OwnedBySession(p, auth));
  }

  /** The visible list keeps the catalogue's relative order. */
  lemma FilteredProductsIsSubsequence(products: seq<Product>, filters: FilterState, auth: AuthState)
    ensures IsSubsequence(FilteredProducts(products, filters, auth), products)
  {
    var relevant := RelevantProducts(products, auth);
    FilterIsSubsequence(relevant, p => IsShown(p, filters));
    if auth.isAuthenticated {
      FilterIsSubsequence(products, p => OwnedBySession(p, auth));
    } else {
      SubsequenceIsReflexive(products);
    }
    SubsequenceIsTransitive(FilteredProducts(products, filters, auth), relevant, products);
  }

  /** With an empty search and the "all" category the whole scoped list is shown. */
  lemma DefaultFiltersShowRelevant(products: seq<Product>, auth: AuthState)
    ensures FilteredProducts(products, DefaultFilters, auth) == RelevantProducts(products, auth)
  {
    FilterKeepsAll(RelevantProducts(products, auth), p => IsShown(p, DefaultFilters));
  }

  /** A category selection that is neither "all" nor a category name shows nothing. */
  lemma UnknownCategoryShowsNothing(products: seq<Product>, filters: FilterState, auth: AuthState)
    requires filters.selectedType != All && !IsCategoryName(filters.selectedType)
    ensures FilteredProducts(products, filters, auth) == []
  {
    var relevant := RelevantProducts(products, auth);
    forall i | 0 <= i < |relevant| ensures !IsShown(relevant[i], filters) {
      CategoryNameIsInjective(relevant[i].category, relevant[i].category);
    }
    FilterDropsAll(relevant, p => IsShown(p, filters));
  }

  /** The `searchTerm === ''` short-cut changes nothing: an empty term matches
      every product through the match predicate as well. */
  lemma EmptySearchShortcutIsRedundant(p: Product, searchTerm: string)
    ensures MatchesSearch(p, searchTerm) == SearchMatch(searchTerm, SearchFields(p))
  {
    if searchTerm == "" {
      EmptyTermMatchesAnyField(SearchFields(p));
    }
  }

  /** Scoping commutes with filtering: filtering the whole catalogue and then
      scoping gives the same list. */
  lemma ScopingCommutesWithFilters(products: seq<Product>, filters: FilterState, auth: AuthState)
    ensures FilteredProducts(products, filters, auth) ==
      RelevantProducts(Filter(products, p => IsShown(p, filters)), auth)
  {
    if auth.isAuthenticated {
      var owned := (p: Product) => OwnedBySession(p, auth);
      var shown := (p: Product) => IsShown(p, filters);
      var both := (p: Product) => owned(p) && shown(p);
      var both' := (p: Product) => shown(p) && owned(p);
      FilterTwice(products, owned, shown, both);
      FilterTwice(products, shown, owned, both');
      FilterAgrees(products, both, both');
    }
  }

  /** Filtering the visible list again with the same inputs changes nothing. */
  lemma FilteredProductsIsIdempotent(products: seq<Product>, filters: FilterState, auth: AuthState)
    ensures FilteredProducts(FilteredProducts(products, filters, auth), filters, auth) ==
      FilteredProducts(products, filters, auth)
  {
    var r := FilteredProducts(products, filters, auth);
    if auth.isAuthenticated {
      FilteredProductsAreOwned(products, filters, auth);
      FilterKeepsAll(r, p => OwnedBySession(p, auth));
    }
    FilterKeepsAll(r, p => IsShown(p, filters));
  }

  /** The visible list is never longer than the product count shown beside it. */
  lemma FilteredWithinTotal(products: seq<Product>, filters: FilterState, auth: AuthState)
    ensures |FilteredProducts(products, filters, auth)| <= TotalProducts(products, auth)
  {
  }

  /** The out-of-stock figure, products minus in stock, counts the scoped
      products that are out of stock; signed out, the total is the catalogue size. */
  lemma OutOfStockCount(products: seq<Product>, auth: AuthState)
    ensures TotalProducts(products, auth) - TotalInStock(products, auth) ==
      |Filter(RelevantProducts(products, auth), (p: Product) => !p.inStock)|
    ensures !auth.isAuthenticated ==> TotalProducts(products, auth) == |products|
  {
    FilterPartition(RelevantProducts(products, auth), (p: Product) => p.inStock, (p: Product) => !p.inStock);
  }

  // ----- The lists the add, edit and delete actions produce -----

  /** A product built from the add form: the draft's fields, overridden by the
      new identifier, the owner's identifier and label, a zero rating and no reviews. */
  function NewProduct(draft: ProductDraft, id: string, owner: Pharmacy): Product {
    Product(
      id := id,
      name := draft.name,
      description := draft.description,
      category := draft.category,
      pharmacyLocation := owner.name + " - " + owner.address,
      pharmacyComment := draft.pharmacyComment,
      price := draft.price,
      inStock := draft.inStock,
      prescribedBy := draft.prescribedBy,
      pharmacyRating := 0.0,
      userReviews := [],
      pharmacyId := owner.id,
      imageUrl := draft.imageUrl)
  }

  /** Each product with the updated product's identifier is replaced by it; the rest stay. */
  function ReplaceById(products: seq<Product>, updated: Product): (r: seq<Product>)
    ensures |r| == |products|
  {
    seq(|products|, i requires 0 <= i < |products| =>
      if products[i].id == updated.id then updated else products[i])
  }

  /** The products whose identifier differs from `id`, in order. */
  function RemoveById(products: seq<Product>, id: string): (r: seq<Product>)
    ensures |r| <= |products|
    ensures forall i | 0 <= i < |r| :: r[i].id != id
  {
    Filter(products, (p: Product) => p.id != id)
  }

  /** A product added by the session pharmacy heads its scoped list and its
      own count goes up by one. */
  lemma NewProductHeadsOwnersList(products: seq<Product>, draft: ProductDraft, id: string, owner: Pharmacy)
    ensures var auth := AuthState(true, Some(owner));
      var added := NewProduct(draft, id, owner);
      RelevantProducts([added] + products, auth) == [added] + RelevantProducts(products, auth) &&
      TotalProducts([added] + products, auth) == TotalProducts(products, auth) + 1 &&
      IsOwner(added, auth) && added.pharmacyRating == 0.0 && added.userReviews == [] &&
      added.id == id && added.pharmacyId == owner.id &&
      added.pharmacyLocation == owner.name + " - " + owner.address
    ensures var added := NewProduct(draft, id, owner);
      added.name == draft.name && added.description == draft.description &&
      added.category == draft.category && added.pharmacyComment == draft.pharmacyComment &&
      added.price == draft.price && added.inStock == draft.inStock &&
      added.prescribedBy == draft.prescribedBy && added.imageUrl == draft.imageUrl
  {
    var auth := AuthState(true, Some(owner));
    FilterAppend([NewProduct(draft, id, owner)], products, p => OwnedBySession(p, auth));
  }

  lemma {:induction false} ReplaceByIdCons(products: seq<Product>, updated: Product)
    requires products != []
    ensures ReplaceById(products, updated) ==
      [if products[0].id == updated.id then updated else products[0]] + ReplaceById(products[1..], updated)
  {
  }

  /** An update whose identifier matches nothing leaves the list unchanged;
      otherwise the updated product takes every matching place and no other. */
  lemma ReplaceByIdEffect(products: seq<Product>, updated: Product, i: nat)
    requires i < |products|
    ensures products[i].id == updated.id ==> ReplaceById(products, updated)[i] == updated
    ensures products[i].id != updated.id ==> ReplaceById(products, updated)[i] == products[i]
    ensures (forall j | 0 <= j < |products| :: products[j].id != updated.id) ==>
      ReplaceById(products, updated) == products
  {
  }

  /** An edit that keeps the owner of the edited identifier keeps every
      product in its owner's view: scoping the edited list is editing the scoped list. */
  lemma {:induction false} ReplaceByIdKeepsScope(products: seq<Product>, updated: Product, auth: AuthState)
    requires forall j | 0 <= j < |products| :: products[j].id == updated.id ==> products[j].pharmacyId == updated.pharmacyId
    ensures RelevantProducts(ReplaceById(products, updated), auth) ==
      ReplaceById(RelevantProducts(products, auth), updated)
    ensures TotalProducts(ReplaceById(products, updated), auth) == TotalProducts(products, auth)
  {
    if auth.isAuthenticated && products != [] {
      var owned := (p: Product) => OwnedBySession(p, auth);
      var head := if products[0].id == updated.id then updated else products[0];
      ReplaceByIdCons(products, updated);
      ReplaceByIdKeepsScope(products[1..], updated, auth);
      assert ReplaceById(products, updated) == [head] + ReplaceById(products[1..], updated);
      FilterAppend([head], ReplaceById(products[1..], updated), owned);
      if owned(products[0]) {
        assert Filter(products, owned) == [products[0]] + Filter(products[1..], owned);
        ReplaceByIdCons(Filter(products, owned), updated);
        assert Filter(products, owned)[1..] == Filter(products[1..], owned);
      }
    }
  }

  /** A delete leaves no product with that identifier, keeps every other one
      in order, and removes exactly as many as had the identifier. */
  lemma RemoveByIdEffect(products: seq<Product>, id: string)
    ensures forall i | 0 <= i < |RemoveById(products, id)| :: RemoveById(products, id)[i].id != id
    ensures forall p | p in products && p.id != id :: p in RemoveById(products, id)
    ensures IsSubsequence(RemoveById(products, id), products)
    ensures |RemoveById(products, id)| + |Filter(products, (p: Product) => p.id == id)| == |products|
  {
    forall p | p in products && p.id != id ensures p in RemoveById(products, id) {
      FilterMembers(products, (q: Product) => q.id != id, p);
    }
    FilterIsSubsequence(products, (p: Product) => p.id != id);
    FilterPartition(products, (p: Product) => p.id != id, (p: Product) => p.id == id);
  }

  /** Deleting an identifier nobody has changes nothing. */
  lemma RemoveAbsentIdIsNoop(products: seq<Product>, id: string)
    requires forall i | 0 <= i < |products| :: products[i].id != id
    ensures RemoveById(products, id) == products
  {
    FilterKeepsAll(products, (p: Product) => p.id != id);
  }
}
