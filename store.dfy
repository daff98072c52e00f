/** The catalogue screen's state and its event handlers (App.tsx). Each
    handler changes only the fields its frame names; the new product list is
    given by the functions of module Catalogue, whose properties are proved there. */
module Store {
  import opened Types
  import opened Catalogue

  class App {
    var products: seq<Product>
    var authState: AuthState
    var showLoginForm: bool
    var editingProduct: Option<Product>
    var selectedProduct: Option<Product>
    var filters: FilterState

    /** The screen as first shown: the given catalogue, signed out, nothing
        open, no filter. */
    constructor (initial: seq<Product>)
      ensures products == initial && authState == SignedOut && !showLoginForm
      ensures editingProduct == None && selectedProduct == None && filters == DefaultFilters
    {
      products := initial;
      authState := SignedOut;
      showLoginForm := false;
      editingProduct := None;
      selectedProduct := None;
      filters := DefaultFilters;
    }

    /** The list the screen shows. */
    function Visible(): (r: seq<Product>)
      reads this
      ensures forall i | 0 <= i < |r| :: IsShown(r[i], filters)
      ensures |r| <= TotalProducts(products, authState)
    {
      FilteredProducts(products, filters, authState)
    }

    /** Adds a product for the session pharmacy at the head of the list; does
        nothing when there is no session pharmacy. The identifier is supplied
        by the caller. */
    method HandleAddProduct(draft: ProductDraft, newId: string)
      modifies this`products
      ensures authState.pharmacy.None? ==> products == old(products)
      ensures authState.pharmacy.Some? ==>
        products == [NewProduct(draft, newId, authState.pharmacy.value)] + old(products) &&
        |products| == |old(products)| + 1
      ensures authState.isAuthenticated && authState.pharmacy.Some? ==>
        TotalProducts(products, authState) == TotalProducts(old(products), authState) + 1
    {
      if authState.pharmacy.Some? {
        if authState.isAuthenticated {
          NewProductHeadsOwnersList(products, draft, newId, authState.pharmacy.value);
        }
        products := [NewProduct(draft, newId, authState.pharmacy.value)] + products;
      }
    }

    /** Replaces every product with the edited product's identifier and closes the edit form. */
    method HandleEditProduct(updated: Product)
      modifies this`products, this`editingProduct
      ensures products == ReplaceById(old(products), updated) && |products| == |old(products)|
      ensures editingProduct == None
    {
      products := ReplaceById(products, updated);
      editingProduct := None;
    }

    /** When the user confirms, removes every product with the identifier and
        closes the detail view if it showed that product; otherwise does nothing. */
    method HandleDeleteProduct(productId: string, confirmed: bool)
      modifies this`products, this`selectedProduct
      ensures !confirmed ==> products == old(products) && selectedProduct == old(selectedProduct)
      ensures confirmed ==> products == RemoveById(old(products), productId)
      ensures confirmed ==>
        selectedProduct == (if old(selectedProduct).Some? && old(selectedProduct).value.id == productId
                            then None else old(selectedProduct))
    {
      if confirmed {
        products := RemoveById(products, productId);
        if selectedProduct.Some? && selectedProduct.value.id == productId {
          selectedProduct := None;
        }
      }
    }

    method HandleSearchChange(searchTerm: string)
      modifies this`filters
      ensures filters.searchTerm == searchTerm && filters.selectedType == old(filters.selectedType)
    {
      filters := filters.(searchTerm := searchTerm);
    }

    method HandleTypeChange(selectedType: string)
      modifies this`filters
      ensures filters.selectedType == selectedType && filters.searchTerm == old(filters.searchTerm)
    {
      filters := filters.(selectedType := selectedType);
    }

    /** Opens a session for the pharmacy and closes the login form. */
    method HandleLogin(pharmacy: Pharmacy)
      modifies this`authState, this`showLoginForm
      ensures authState == AuthState(true, Some(pharmacy)) && !showLoginForm
    {
      authState := AuthState(true, Some(pharmacy));
      showLoginForm := false;
    }

    /** Ends the session and resets the filters and every open view; the
        product list stays as it is. */
    method HandleLogout()
      modifies this`authState, this`filters, this`selectedProduct, this`editingProduct, this`showLoginForm
      ensures authState == SignedOut && filters == DefaultFilters
      ensures selectedProduct == None && editingProduct == None && !showLoginForm
      ensures Visible() == products
    {
      authState := SignedOut;
      filters := DefaultFilters;
      selectedProduct := None;
      editingProduct := None;
      showLoginForm := false;
      DefaultFiltersShowRelevant(products, authState);
    }

    /** Resets the filters and closes every open view; the session and the
        product list stay as they are. */
    method HandleLogoClick()
      modifies this`filters, this`selectedProduct, this`editingProduct, this`showLoginForm
      ensures filters == DefaultFilters
      ensures selectedProduct == None && editingProduct == None && !showLoginForm
      ensures Visible() == RelevantProducts(products, authState)
    {
      filters := DefaultFilters;
      selectedProduct := None;
      editingProduct := None;
      showLoginForm := false;
      DefaultFiltersShowRelevant(products, authState);
    }

    method OpenLoginForm()
      modifies this`showLoginForm
      ensures showLoginForm
    {
      showLoginForm := true;
    }

    method CloseLoginForm()
      modifies this`showLoginForm
      ensures !showLoginForm
    {
      showLoginForm := false;
    }

    /** A product card was clicked: open its detail view. */
    method ViewProduct(p: Product)
      modifies this`selectedProduct
      ensures selectedProduct == Some(p)
    {
      selectedProduct := Some(p);
    }

    method CloseDetail()
      modifies this`selectedProduct
      ensures selectedProduct == None
    {
      selectedProduct := None;
    }

    /** A product card's edit button: open the edit form on it. */
    method StartEditing(p: Product)
      modifies this`editingProduct
      ensures editingProduct == Some(p)
    {
      editingProduct := Some(p);
    }

    method CloseEditForm()
      modifies this`editingProduct
      ensures editingProduct == None
    {
      editingProduct := None;
    }

    /** The detail view's edit button: the viewed product moves to the edit form. */
    method EditFromDetail()
      requires selectedProduct.Some?
      modifies this`editingProduct, this`selectedProduct
      ensures editingProduct == old(selectedProduct) && selectedProduct == None
    {
      editingProduct := selectedProduct;
      selectedProduct := None;
    }

    /** The detail view's delete button: the delete handler for the viewed
        product, after which the view is closed whether or not the user confirmed. */
    method DeleteFromDetail(confirmed: bool)
      requires selectedProduct.Some?
      modifies this`products, this`selectedProduct
      ensures confirmed ==> products == RemoveById(old(products), old(selectedProduct).value.id)
      ensures !confirmed ==> products == old(products)
      ensures selectedProduct == None
    {
      HandleDeleteProduct(selectedProduct.value.id, confirmed);
      selectedProduct := None;
    }
  }
}
