/** The catalogue's data shapes: products, reviews, pharmacies and the
    authentication and filter records the screen keeps. */
module Types {

  datatype Option<T> = None | Some(value: T)

  /** The closed set of product categories. */
  datatype Category = Pharmaceutique | Parapharmaceutique | Cosmetique

  /** The category selector's "all categories" value. */
  const All: string := "Tous"

  /** The label a category is stored and compared under. */
  function CategoryName(c: Category): (name: string)
    ensures name != All
  {
    match c
    case Pharmaceutique => "Pharmaceutique"
    case Parapharmaceutique => "Parapharmaceutique"
    case Cosmetique => "Cosmétique"
  }

  /** Whether a category selection names one of the three categories. */
  predicate IsCategoryName(s: string) {
    s == "Pharmaceutique" || s == "Parapharmaceutique" || s == "Cosmétique"
  }

  /** Distinct categories carry distinct labels, and every label is a category name. */
  lemma CategoryNameIsInjective(a: Category, b: Category)
    ensures IsCategoryName(CategoryName(a))
    ensures CategoryName(a) == CategoryName(b) <==> a == b
  {
  }

  datatype UserReview = UserReview(
    id: string,
    userName: string,
    rating: real,
    comment: string,
    date: string)

  /** A catalogue entry. `category` is the source's `type` field (a keyword
      in Dafny); price and rating are kept as opaque numbers. */
  datatype Product = Product(
    id: string,
    name: string,
    description: string,
    category: Category,
    pharmacyLocation: string,
    pharmacyComment: string,
    price: real,
    inStock: bool,
    prescribedBy: Option<string>,
    pharmacyRating: real,
    userReviews: seq<UserReview>,
    pharmacyId: string,
    imageUrl: Option<string>)

  /** Every field of a product except its identifier: what the add form hands over. */
  datatype ProductDraft = ProductDraft(
    name: string,
    description: string,
    category: Category,
    pharmacyLocation: string,
    pharmacyComment: string,
    price: real,
    inStock: bool,
    prescribedBy: Option<string>,
    pharmacyRating: real,
    userReviews: seq<UserReview>,
    pharmacyId: string,
    imageUrl: Option<string>)

  datatype Pharmacy = Pharmacy(id: string, name: string, email: string, address: string)

  /** The session flag and the session pharmacy are stored independently. */
  datatype AuthState = AuthState(isAuthenticated: bool, pharmacy: Option<Pharmacy>)

  /** `selectedType` is free text: the "all" value, a category name, or anything else. */
  datatype FilterState = FilterState(searchTerm: string, selectedType: string)

  const SignedOut: AuthState := AuthState(false, None)

  const DefaultFilters: FilterState := FilterState("", All)
}
