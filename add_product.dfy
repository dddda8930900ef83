/**
 * The admin "Add Product" form: a live message per input while typing
 * (`validateField`), a full check before posting (`validateInputs`), and the
 * post itself.
 */
module AddProduct {
  import opened Wrappers
  import opened JsText
  import opened JsNumbers
  import opened Forms

  /** The inputs of the form, named after their `name` attributes. */
  datatype Field = ProductName | ProductDescription | ProductPrice | ProductCategory | ProductBrand | ProductImage

  /** The keys of the `errors` dictionary: an input's entry, or the `form` entry a failed post sets. */
  datatype ErrorKey = InputKey(field: Field) | FormKey

  /** The `product` state; the image is the chosen file (its name), `null` until one is chosen. */
  datatype ProductForm = ProductForm(
    name: string, description: string, price: string, category: string, brand: string, image: Option<string>)

  const EmptyForm := ProductForm("", "", "", "", "", None)

  const NameRequired := "Product name is required."
  const DescriptionRequired := "Product description is required."
  const PriceInvalid := "Please enter a valid price."
  const CategoryMissing := "Please select a category."
  const BrandRequired := "Product brand is required."
  const PostFailed := "Error adding product. Please try again later."
  const Added := "Product added successfully!"
  /** The product list the page returns to after an accepted post. */
  const ProductsRoute := "/admin/products"

  /** The text an input holds; the image input is the file picker. */
  function TextOf(p: ProductForm, f: Field): string
    requires f != ProductImage
  {
    match f
    case ProductName => p.name
    case ProductDescription => p.description
    case ProductPrice => p.price
    case ProductCategory => p.category
    case ProductBrand => p.brand
  }

  /** `validateField(name, value)`: the `switch` over the input names; the image and any other input get "". */
  function FieldCheck(f: Field, value: string): (msg: string)
    ensures f == ProductImage ==> msg == ""
  {
    match f
    case ProductName => if IsBlank(value) then NameRequired else ""
    case ProductDescription => if IsBlank(value) then DescriptionRequired else ""
    case ProductPrice => if !IsPositiveNumber(value) then PriceInvalid else ""
    case ProductCategory => if value == "" then CategoryMissing else ""
    case ProductBrand => if IsBlank(value) then BrandRequired else ""
    case ProductImage => ""
  }

  /** The message `validateInputs` records for an input of the whole form, if any; the image is never checked. */
  function InputError(p: ProductForm, f: Field): Option<string> {
    match f
    case ProductName => if IsBlank(p.name) then Some(NameRequired) else None
    case ProductDescription => if IsBlank(p.description) then Some(DescriptionRequired) else None
    case ProductPrice => if !IsPositiveNumber(p.price) then Some(PriceInvalid) else None
    case ProductCategory => if p.category == "" then Some(CategoryMissing) else None
    case ProductBrand => if IsBlank(p.brand) then Some(BrandRequired) else None
    case ProductImage => None
  }

  /** The `newErrors` dictionary `validateInputs` builds, in its order. */
  function InputErrors(p: ProductForm): map<ErrorKey, string> {
    var m := WithError(map[], InputKey(ProductName), InputError(p, ProductName));
    var m := WithError(m, InputKey(ProductDescription), InputError(p, ProductDescription));
    var m := WithError(m, InputKey(ProductPrice), InputError(p, ProductPrice));
    var m := WithError(m, InputKey(ProductCategory), InputError(p, ProductCategory));
    WithError(m, InputKey(ProductBrand), InputError(p, ProductBrand))
  }

  /** Each input's entry is exactly its own message, and there is no `form` entry. */
  lemma InputErrorsSpec(p: ProductForm, f: Field)
    ensures InputKey(f) in InputErrors(p) <==> InputError(p, f).Some?
    ensures InputKey(f) in InputErrors(p) ==> InputErrors(p)[InputKey(f)] == InputError(p, f).value
    ensures FormKey !in InputErrors(p)
  {
  }

  /** Every input passes: the conditions `validateInputs` tests, and nothing about the image. */
  predicate InputsPass(p: ProductForm) {
    && !IsBlank(p.name) && !IsBlank(p.description) && IsPositiveNumber(p.price)
    && p.category != "" && !IsBlank(p.brand)
  }

  /** `validateInputs` returns true exactly when all five checked inputs pass; the image is not required. */
  lemma InputErrorsEmptyIff(p: ProductForm)
    ensures InputErrors(p) == map[] <==> InputsPass(p)
  {
    if !InputsPass(p) {
      var f :| f != ProductImage && InputError(p, f).Some?;
      InputErrorsSpec(p, f);
    }
  }

  /** `validateField` and `validateInputs` give an input the same message (none when it passes). */
  lemma ChecksAgree(p: ProductForm, f: Field)
    requires f != ProductImage
    ensures FieldCheck(f, TextOf(p, f)) == InputError(p, f).GetOr("")
    ensures FieldCheck(f, TextOf(p, f)) == "" <==> InputError(p, f).None?
  {
  }

  class AddProductPage {
    var product: ProductForm
    var errors: map<ErrorKey, string>
    var loading: bool
    var successMessage: string

    constructor ()
      ensures product == EmptyForm && errors == map[] && !loading && successMessage == ""
    {
      product := EmptyForm;
      errors, loading, successMessage := map[], false, "";
    }

    /** `handleChange` for a text input: store the value and its live message. */
    method ChangeText(f: Field, value: string)
      requires f != ProductImage
      modifies this`product, this`errors
      ensures TextOf(product, f) == value && product.image == old(product.image)
      ensures forall g :: g != ProductImage && g != f ==> TextOf(product, g) == TextOf(old(product), g)
      ensures errors == old(errors)[InputKey(f) := FieldCheck(f, value)]
    {
      match f {
        case ProductName => product := product.(name := value);
        case ProductDescription => product := product.(description := value);
        case ProductPrice => product := product.(price := value);
        case ProductCategory => product := product.(category := value);
        case ProductBrand => product := product.(brand := value);
      }
      errors := errors[InputKey(f) := FieldCheck(f, value)];
    }

    /** `handleChange` for the image input: store the chosen file; its entry is always cleared. */
    method ChangeImage(file: string, pickerValue: string)
      modifies this`product, this`errors
      ensures product == old(product).(image := Some(file))
      ensures errors == old(errors)[InputKey(ProductImage) := ""]
    {
      product := product.(image := Some(file));
      errors := errors[InputKey(ProductImage) := FieldCheck(ProductImage, pickerValue)];
    }

    /** `validateInputs`: the dictionary replaces the errors; true exactly when it is empty. */
    method ValidateInputs() returns (ok: bool)
      modifies this`errors
      ensures errors == InputErrors(product)
      ensures ok <==> InputsPass(product)
    {
      var newErrors: map<ErrorKey, string> := map[];
      newErrors := WithError(newErrors, InputKey(ProductName), InputError(product, ProductName));
      newErrors := WithError(newErrors, InputKey(ProductDescription), InputError(product, ProductDescription));
      newErrors := WithError(newErrors, InputKey(ProductPrice), InputError(product, ProductPrice));
      newErrors := WithError(newErrors, InputKey(ProductCategory), InputError(product, ProductCategory));
      newErrors := WithError(newErrors, InputKey(ProductBrand), InputError(product, ProductBrand));
      errors := newErrors;
      InputErrorsEmptyIff(product);
      ok := newErrors == map[];
    }

    /**
     * `handleSubmit`: nothing is posted unless `validateInputs` passes; a failed post
     * replaces every message by the `form` one, and an accepted one moves on (two seconds
     * later) to the product list.
     */
    method HandleSubmit(succeeded: bool) returns (sent: Option<ProductForm>, navigateTo: Option<string>)
      modifies this`errors, this`loading, this`successMessage
      ensures sent.Some? <==> InputsPass(product)
      ensures sent.None? ==> errors == InputErrors(product) && successMessage == old(successMessage)
      ensures sent.Some? ==> sent.value == product && !loading
      ensures sent.Some? && succeeded ==> successMessage == Added && errors == InputErrors(product)
      ensures sent.Some? && !succeeded ==> errors == map[FormKey := PostFailed] && successMessage == old(successMessage)
      ensures sent.None? ==> loading == old(loading)
      ensures navigateTo.Some? <==> sent.Some? && succeeded
      ensures navigateTo.Some? ==> navigateTo.value == ProductsRoute
    {
      var ok := ValidateInputs();
      if !ok {
        return None, None;
      }
      loading := true;
      sent, navigateTo := Some(product), None;
      loading := false;
      if succeeded {
        successMessage := Added;
        navigateTo := Some(ProductsRoute);
      } else {
        errors := map[FormKey := PostFailed];
      }
    }
  }
}
