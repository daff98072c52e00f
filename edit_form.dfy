/** The product edit form (EditProductForm.tsx): the form's working copy of
    the editable fields, its field-by-field updates, and the submitted
    product, which is the original product overridden by the form's fields. */
module EditForm {
  import opened Types
  import opened Catalogue

  /** The editable fields as the form holds them. The optional prescriber and
      image become plain text. Identifier, owner, location label, rating and
      reviews are not form fields. */
  datatype FormData = FormData(
    name: string,
    description: string,
    category: Category,
    pharmacyComment: string,
    price: real,
    inStock: bool,
    prescribedBy: string,
    imageUrl: string)

  /** `value || ''`: a missing value, like an empty one, becomes the empty string. */
  function OrEmpty(o: Option<string>): string {
    if o.Some? then o.value else ""
  }

  /** The form's starting values, read from the product being edited. */
  function InitialFormData(p: Product): FormData {
    FormData(p.name, p.description, p.category, p.pharmacyComment, p.price, p.inStock,
      OrEmpty(p.prescribedBy), OrEmpty(p.imageUrl))
  }

  /** The submitted product: every field of the original, then every form
      field written over it. */
  function Submit(p: Product, form: FormData): (r: Product)
    ensures r.id == p.id && r.pharmacyId == p.pharmacyId && r.pharmacyLocation == p.pharmacyLocation
    ensures r.pharmacyRating == p.pharmacyRating && r.userReviews == p.userReviews
  {
    p.(name := form.name, description := form.description, category := form.category,
       pharmacyComment := form.pharmacyComment, price := form.price, inStock := form.inStock,
       prescribedBy := Some(form.prescribedBy), imageUrl := Some(form.imageUrl))
  }

  /** One change event of a text, select or number input: which field and its
      new value (a number input's text is taken as already parsed). */
  datatype FieldInput =
    | NameInput(name: string)
    | TypeInput(category: Category)
    | DescriptionInput(description: string)
    | CommentInput(pharmacyComment: string)
    | PrescribedByInput(prescribedBy: string)
    | PriceInput(price: real)

  /** The form after one input event: the named field takes the new value. */
  function ApplyInput(form: FormData, input: FieldInput): FormData {
    match input
    case NameInput(v) => form.(name := v)
    case TypeInput(v) => form.(category := v)
    case DescriptionInput(v) => form.(description := v)
    case CommentInput(v) => form.(pharmacyComment := v)
    case PrescribedByInput(v) => form.(prescribedBy := v)
    case PriceInput(v) => form.(price := v)
  }

  /** Opening the form on a submitted product shows exactly the values submitted. */
  lemma SubmitThenReopen(p: Product, form: FormData)
    ensures InitialFormData(Submit(p, form)) == form
  {
  }

  /** Submitting an untouched form gives the original product back, except
      that a missing prescriber or image becomes the empty string. */
  lemma UntouchedSubmit(p: Product)
    ensures Submit(p, InitialFormData(p)) ==
      p.(prescribedBy := Some(OrEmpty(p.prescribedBy)), imageUrl := Some(OrEmpty(p.imageUrl)))
    ensures p.prescribedBy.Some? && p.imageUrl.Some? ==> Submit(p, InitialFormData(p)) == p
  {
  }

  /** An input event changes the submitted product in that one field only,
      and the checkbox changes only the stock flag. */
  lemma InputChangesOneField(p: Product, form: FormData, input: FieldInput, checked: bool)
    ensures var before := Submit(p, form);
      var after := Submit(p, ApplyInput(form, input));
      after.inStock == before.inStock &&
      after.imageUrl == before.imageUrl &&
      (input.NameInput? ==> after == before.(name := input.name)) &&
      (input.TypeInput? ==> after == before.(category := input.category)) &&
      (input.DescriptionInput? ==> after == before.(description := input.description)) &&
      (input.CommentInput? ==> after == before.(pharmacyComment := input.pharmacyComment)) &&
      (input.PrescribedByInput? ==> after == before.(prescribedBy := Some(input.prescribedBy))) &&
      (input.PriceInput? ==> after == before.(price := input.price))
    ensures Submit(p, form.(inStock := checked)) == Submit(p, form).(inStock := checked)
  {
  }

  /** An edit never moves a product out of its owner's view: the owner keeps
      the same number of products, the edited one among them. */
  lemma EditStaysInOwnersView(products: seq<Product>, p: Product, form: FormData, auth: AuthState)
    requires p in products
    requires forall j | 0 <= j < |products| :: products[j].id == p.id ==> products[j].pharmacyId == p.pharmacyId
    ensures TotalProducts(ReplaceById(products, Submit(p, form)), auth) == TotalProducts(products, auth)
    ensures p in RelevantProducts(products, auth) ==>
      Submit(p, form) in RelevantProducts(ReplaceById(products, Submit(p, form)), auth)
  {
    var updated := Submit(p, form);
    ReplaceByIdKeepsScope(products, updated, auth);
    if p in RelevantProducts(products, auth) {
      var relevant := RelevantProducts(products, auth);
      var i :| 0 <= i < |relevant| && relevant[i] == p;
      ReplaceByIdEffect(relevant, updated, i);
    }
  }

  /** The form component: the product it edits and its working copy. */
  class EditProductForm {
    const product: Product
    var formData: FormData

    constructor (product: Product)
      ensures this.product == product && formData == InitialFormData(product)
    {
      this.product := product;
      formData := InitialFormData(product);
    }

    method HandleInputChange(input: FieldInput)
      modifies this`formData
      ensures formData == ApplyInput(old(formData), input)
    {
      formData := ApplyInput(formData, input);
    }

    method HandleCheckboxChange(checked: bool)
      modifies this`formData
      ensures formData == old(formData).(inStock := checked)
    {
      formData := formData.(inStock := checked);
    }

    /** The file reader's result, a data URL, becomes the image field. */
    method HandleFileLoaded(dataUrl: string)
      modifies this`formData
      ensures formData == old(formData).(imageUrl := dataUrl)
    {
      formData := formData.(imageUrl := dataUrl);
    }

    /** The product handed to the edit handler. */
    method HandleSubmit() returns (updated: Product)
      ensures updated == Submit(product, formData)
      ensures updated.id == product.id && updated.pharmacyId == product.pharmacyId
      ensures InitialFormData(updated) == formData
    {
      updated := Submit(product, formData);
    }
  }
}
