/** The model's results on two entries of the demo catalogue (mockData.ts),
    abbreviated: the descriptions, pharmacy comments and reviews are empty,
    the location label stops at the pharmacy's name, and the cream's name
    drops "Visage". */
module Scenarios {
  import opened Types
  import opened Seqs
  import opened Text
  import opened Search
  import opened Catalogue
  import opened Store
  import opened Login

  function Paracetamol(): Product {
    Product("1", "Parac" + "é" + "tamol 500mg", "", Pharmaceutique, "Pharmacie Centrale", "",
      3.5, true, Some("Dr. Marie Dubois"), 4.5, [], "1", None)
  }

  function Creme(): Product {
    Product("2", "Cr" + "è" + "me Hydratante", "", Cosmetique, "Pharmacie du March" + "é", "",
      15.9, true, None, 4.2, [], "2", None)
  }

  function Fixture(): seq<Product> {
    [Paracetamol(), Creme()]
  }

  lemma FilterPair<T>(a: T, b: T, keep: T -> bool)
    ensures Filter([a, b], keep) == (if keep(a) then [a] else []) + (if keep(b) then [b] else [])
  {
    assert [a, b] == [a] + [b];
    FilterAppend([a], [b], keep);
  }

  /** 'paracetamol' finds the accented, capitalised first entry. */
  lemma ParacetamolFindsFirstEntry(term: string)
    requires NormalizeText(term) == "paracetamol"
    ensures MatchesSearch(Paracetamol(), term)
  {
    NormalizeParacetamolName();
    ParacetamolIsPrefix();
    PrefixOfFirstFieldMatches(term, SearchFields(Paracetamol()));
  }

  lemma NoOInCremeName()
    ensures 'o' !in NormalizeText("Cr" + "è" + "me Hydratante")
  {
    NormalizeTextOmits("Cr" + "è" + "me Hydratante", 'o');
  }

  lemma NoOInMarcheLocation()
    ensures 'o' !in NormalizeText("Pharmacie du March" + "é")
  {
    NormalizeTextOmits("Pharmacie du March" + "é", 'o');
  }

  /** A term that normalises to 'paracetamol' misses any product whose
      searched fields have no 'o' in any case or accent. */
  lemma ParacetamolNeedsAnO(p: Product, term: string)
    requires NormalizeText(term) == "paracetamol"
    requires 'o' !in NormalizeText(p.name) && 'o' !in NormalizeText(p.description)
    requires 'o' !in NormalizeText(p.pharmacyLocation)
    ensures !MatchesSearch(p, term)
  {
    assert "paracetamol"[9] == 'o';
    MissingCharacterMatchesNothing(term, SearchFields(p), 'o');
  }

  /** A term that normalises to 'paracetamol' does not find the second entry. */
  lemma ParacetamolMissesSecondEntry(term: string)
    requires NormalizeText(term) == "paracetamol"
    ensures !MatchesSearch(Creme(), term)
  {
    assert 'o' !in NormalizeText(Creme().name) by { NoOInCremeName(); }
    assert 'o' !in NormalizeText(Creme().description) by { assert NormalizeText("") == ""; }
    assert 'o' !in NormalizeText(Creme().pharmacyLocation) by { NoOInMarcheLocation(); }
    ParacetamolNeedsAnO(Creme(), term);
  }

  /** Signed out, any term that normalises to 'paracetamol' ('paracetamol',
      'PARACÉTAMOL', ...) shows only the first entry. */
  lemma SearchScenario(term: string)
    requires NormalizeText(term) == "paracetamol"
    ensures FilteredProducts(Fixture(), FilterState(term, All), SignedOut) == [Paracetamol()]
  {
    var shown := (p: Product) => IsShown(p, FilterState(term, All));
    assert shown(Paracetamol()) by { ParacetamolFindsFirstEntry(term); }
    assert !shown(Creme()) by { ParacetamolMissesSecondEntry(term); }
    FilterPair(Paracetamol(), Creme(), shown);
  }

  /** A product none of whose searched fields has an 'x' in any case or
      accent is missed by the search 'xyz'. */
  lemma XyzMissesProduct(p: Product)
    requires 'x' !in NormalizeText(p.name) && 'x' !in NormalizeText(p.description)
    requires 'x' !in NormalizeText(p.pharmacyLocation)
    ensures !MatchesSearch(p, "xyz")
  {
    assert 'x' in NormalizeText("xyz") by { NormalizeXyz(); assert "xyz"[0] == 'x'; }
    MissingCharacterMatchesNothing("xyz", SearchFields(p), 'x');
  }

  lemma NormalizeXyz()
    ensures NormalizeText("xyz") == "xyz"
  {
    NormalizeTextFixesNormal("xyz");
  }

  lemma NoXInParacetamolName()
    ensures 'x' !in NormalizeText("Parac" + "é" + "tamol 500mg")
  {
    NormalizeTextOmits("Parac" + "é" + "tamol 500mg", 'x');
  }

  lemma NoXInCentraleLocation()
    ensures 'x' !in NormalizeText("Pharmacie Centrale")
  {
    NormalizeTextOmits("Pharmacie Centrale", 'x');
  }

  lemma NoXInCremeName()
    ensures 'x' !in NormalizeText("Cr" + "è" + "me Hydratante")
  {
    NormalizeTextOmits("Cr" + "è" + "me Hydratante", 'x');
  }

  lemma NoXInMarcheLocation()
    ensures 'x' !in NormalizeText("Pharmacie du March" + "é")
  {
    NormalizeTextOmits("Pharmacie du March" + "é", 'x');
  }

  /** Signed out, the search 'xyz' with every category shows nothing. */
  lemma NoMatchScenario()
    ensures FilteredProducts(Fixture(), FilterState("xyz", All), SignedOut) == []
  {
    var shown := (p: Product) => IsShown(p, FilterState("xyz", All));
    assert NormalizeText("") == "";
    assert !shown(Paracetamol()) by {
      NoXInParacetamolName();
      NoXInCentraleLocation();
      XyzMissesProduct(Paracetamol());
    }
    assert !shown(Creme()) by {
      NoXInCremeName();
      NoXInMarcheLocation();
      XyzMissesProduct(Creme());
    }
    FilterPair(Paracetamol(), Creme(), shown);
  }

  lemma SearchParacetamolScenario()
    ensures FilteredProducts(Fixture(), FilterState("paracetamol", All), SignedOut) == [Paracetamol()]
  {
    NormalizeParacetamolTerm();
    SearchScenario("paracetamol");
  }

  /** Signed out, the cosmetics category shows only the second entry. */
  lemma CategoryScenario()
    ensures FilteredProducts(Fixture(), FilterState("", "Cosm" + "étique"), SignedOut) == [Creme()]
  {
    var shown := (p: Product) => IsShown(p, FilterState("", "Cosm" + "étique"));
    assert !shown(Paracetamol());
    assert Fixture()[1..] == [Creme()];
    assert Filter([Creme()], shown) == [Creme()];
  }

  /** Signed in as the market pharmacy, only its own entry is in scope. */
  lemma OwnerScenario(email: string)
    ensures FilteredProducts(Fixture(), DefaultFilters, AuthState(true, Some(Marche(email)))) == [Creme()]
    ensures TotalProducts(Fixture(), AuthState(true, Some(Marche(email)))) == 1
  {
    var auth := AuthState(true, Some(Marche(email)));
    DefaultFiltersShowRelevant(Fixture(), auth);
    var owned := (p: Product) => OwnedBySession(p, auth);
    assert Fixture()[1..] == [Creme()];
    assert Filter([Creme()], owned) == [Creme()];
  }

  /** Without the same-owner hypothesis an edit can take a product out of its
      owner's view: pharmacy "1" submits an edit under the identifier of
      pharmacy "2"'s product, which is replaced, and pharmacy "2"'s count drops
      from 1 to 0. */
  lemma ForeignEditHidesProduct(email: string)
    ensures var auth := AuthState(true, Some(Marche(email)));
      var edited := Paracetamol().(id := Creme().id);
      TotalProducts([Creme()], auth) == 1 &&
      TotalProducts(ReplaceById([Creme()], edited), auth) == 0
  {
    var auth := AuthState(true, Some(Marche(email)));
    var edited := Paracetamol().(id := Creme().id);
    var owned := (p: Product) => OwnedBySession(p, auth);
    assert ReplaceById([Creme()], edited) == [edited];
    assert Filter([edited], owned) == [];
    assert Filter([Creme()], owned) == [Creme()];
  }

  lemma MarcheEmailSelectsMarket()
    ensures MockPharmacy("marche") == Marche("marche")
  {
    IncludesOnlyOwnCharacters("marche", "centrale", 'n');
    assert Includes("marche", "marche");
  }

  /** Logging in through the form with the address 'marche' opens a session
      for the market pharmacy. */
  method LoginScenario() returns (pharmacy: Pharmacy)
    ensures pharmacy == Marche("marche")
  {
    var form := new LoginForm();
    form.HandleInputChange(Email, "marche");
    form.HandleSubmit();
    pharmacy := form.CompleteLogin();
    MarcheEmailSelectsMarket();
  }

  /** Logging in as the market pharmacy, typing a search, then clicking the
      logo: the session is open and the filters are back to their defaults. */
  method SignIn(app: App)
    modifies app
    ensures app.products == old(app.products)
    ensures app.authState == AuthState(true, Some(Marche("marche"))) && app.filters == DefaultFilters
  {
    var pharmacy := LoginScenario();
    app.HandleLogin(pharmacy);
    app.HandleSearchChange("paracetamol");
    app.HandleLogoClick();
  }

  /** A whole session: open the screen, log in with a market email, look
      around, log out. Returns what the screen shows at each step. */
  method SessionScenario() returns (signedIn: seq<Product>, signedOut: seq<Product>)
    ensures signedIn == [Creme()]
    ensures signedOut == Fixture()
  {
    var app := new App(Fixture());
    SignIn(app);
    signedIn := app.Visible();
    assert signedIn == [Creme()] by { OwnerScenario("marche"); }
    app.HandleLogout();
    signedOut := app.Visible();
    assert signedOut == Fixture() by { DefaultFiltersShowRelevant(Fixture(), SignedOut); }
  }
}
