/**
 * The admin "Edit Product" form: the same rules as the add form, checked one
 * after another with only the first failure reported, and a multipart body that
 * carries the image only when a new one was chosen.
 */
module EditProduct {
  import opened Wrappers
  import opened JsText
  import opened JsNumbers
  import opened AddProduct

  /** The loaded product; the price is held as its string form (what `toString()` gives). */
  datatype Product = Product(name: string, description: string, price: string, category: string, brand: string)

  /** One `formData.append(key, value)`. */
  datatype Entry = Entry(key: string, value: string)

  const UpdateFailed := "Failed to update product. Please try again."

  /** The product as the add form holds it, with no image chosen: both forms share their rules. */
  function AsForm(p: Product): ProductForm {
    ProductForm(p.name, p.description, p.price, p.category, p.brand, None)
  }

  /** The order in which `validateInputs` tests the inputs. */
  const CheckOrder: seq<Field> := [ProductName, ProductDescription, ProductPrice, ProductCategory, ProductBrand]

  /** The message of the first input in `fields` that fails, if any. */
  function FirstFailure(p: Product, fields: seq<Field>): Option<string> {
    if fields == [] then None
    else if InputError(AsForm(p), fields[0]).Some? then InputError(AsForm(p), fields[0])
    else FirstFailure(p, fields[1..])
  }

  /** The reported message belongs to a failing input all of whose predecessors pass; none means all pass. */
  lemma {:induction false} FirstFailureSpec(p: Product, fields: seq<Field>)
    ensures FirstFailure(p, fields).None? <==> forall k :: 0 <= k < |fields| ==> InputError(AsForm(p), fields[k]).None?
    ensures FirstFailure(p, fields).Some? ==>
              exists k :: 0 <= k < |fields| && FirstFailure(p, fields) == InputError(AsForm(p), fields[k])
                          && forall j :: 0 <= j < k ==> InputError(AsForm(p), fields[j]).None?
  {
    if fields != [] && InputError(AsForm(p), fields[0]).None? {
      var rest := fields[1..];
      FirstFailureSpec(p, rest);
      assert forall k :: 1 <= k < |fields| ==> fields[k] == rest[k - 1];
      if FirstFailure(p, rest).Some? {
        var k :| 0 <= k < |rest| && FirstFailure(p, rest) == InputError(AsForm(p), rest[k])
                 && forall j :: 0 <= j < k ==> InputError(AsForm(p), rest[j]).None?;
        assert FirstFailure(p, fields) == InputError(AsForm(p), fields[k + 1]);
      }
    }
  }

  /** The edit form passes exactly when the add form's rules all pass: the image is not required here either. */
  lemma EditPassesIff(p: Product)
    ensures FirstFailure(p, CheckOrder).None? <==> InputsPass(AsForm(p))
  {
    FirstFailureSpec(p, CheckOrder);
    if !InputsPass(AsForm(p)) {
      var f :| f != ProductImage && InputError(AsForm(p), f).Some?;
      assert f == CheckOrder[IndexOfField(f)];
    }
  }

  /** Where an input sits in `CheckOrder`. */
  function IndexOfField(f: Field): (k: nat)
    requires f != ProductImage
    ensures k < |CheckOrder| && CheckOrder[k] == f
  {
    match f
    case ProductName => 0
    case ProductDescription => 1
    case ProductPrice => 2
    case ProductCategory => 3
    case ProductBrand => 4
  }

  /** The body of the update: the five text inputs, in order, then the image only if one was chosen. */
  function Multipart(p: Product, image: Option<string>): (body: seq<Entry>)
    ensures |body| == if image.Some? then 6 else 5
    ensures body[..5] == [Entry("product_name", p.name), Entry("product_description", p.description),
                          Entry("product_price", p.price), Entry("product_category", p.category),
                          Entry("product_brand", p.brand)]
    ensures image.Some? ==> body[5] == Entry("product_image", image.value)
  {
    var text := [Entry("product_name", p.name), Entry("product_description", p.description),
                 Entry("product_price", p.price), Entry("product_category", p.category),
                 Entry("product_brand", p.brand)];
    if image.Some? then text + [Entry("product_image", image.value)] else text
  }

  /** A body carries an image entry exactly when a new image was chosen. */
  lemma ImageSentIff(p: Product, image: Option<string>)
    ensures (exists i :: 0 <= i < |Multipart(p, image)| && Multipart(p, image)[i].key == "product_image")
            <==> image.Some?
  {
    var body := Multipart(p, image);
    if image.Some? {
      assert body[5].key == "product_image";
    } else {
      assert forall i :: 0 <= i < |body| ==> body[i].key != "product_image";
    }
  }

  class EditProductPage {
    var product: Product
    var image: Option<string>
    var previewImage: string
    var errorMessage: string

    constructor ()
      ensures product == Product("", "", "", "", "") && image == None && previewImage == "" && errorMessage == ""
    {
      product := Product("", "", "", "", "");
      image, previewImage, errorMessage := None, "", "";
    }

    /** The effect that loads the product: on success its fields and stored image URL are shown. */
    method Load(loaded: Option<(Product, string)>)
      modifies this`product, this`previewImage
      ensures loaded.Some? ==> product == loaded.value.0 && previewImage == loaded.value.1
      ensures loaded.None? ==> product == old(product) && previewImage == old(previewImage)
    {
      if loaded.Some? {
        product := loaded.value.0;
        previewImage := loaded.value.1;
      }
    }

    /** `handleChange`: one input's text is replaced. */
    method HandleChange(f: Field, value: string)
      requires f != ProductImage
      modifies this`product
      ensures TextOf(AsForm(product), f) == value
      ensures forall g :: g != ProductImage && g != f ==> TextOf(AsForm(product), g) == TextOf(AsForm(old(product)), g)
    {
      match f {
        case ProductName => product := product.(name := value);
        case ProductDescription => product := product.(description := value);
        case ProductPrice => product := product.(price := value);
        case ProductCategory => product := product.(category := value);
        case ProductBrand => product := product.(brand := value);
      }
    }

    /** `handleImageChange`: the chosen file and a preview URL for it. */
    method HandleImageChange(file: string, objectUrl: string)
      modifies this`image, this`previewImage
      ensures image == Some(file) && previewImage == objectUrl
    {
      image := Some(file);
      previewImage := objectUrl;
    }

    /** `validateInputs`: the first failing check's message is shown, and "" when all pass. */
    method ValidateInputs() returns (ok: bool)
      modifies this`errorMessage
      ensures ok <==> FirstFailure(product, CheckOrder).None?
      ensures errorMessage == FirstFailure(product, CheckOrder).GetOr("")
    {
      var tail := CheckOrder[2..];
      assert CheckOrder[1..][1..] == tail;
      var last := CheckOrder[4..];
      assert tail[1..][1..] == last;
      if IsBlank(product.name) {
        errorMessage := NameRequired;
        return false;
      }
      if IsBlank(product.description) {
        errorMessage := DescriptionRequired;
        return false;
      }
      assert FirstFailure(product, CheckOrder) == FirstFailure(product, tail);
      if !IsPositiveNumber(product.price) {
        errorMessage := PriceInvalid;
        return false;
      }
      if product.category == "" {
        errorMessage := CategoryMissing;
        return false;
      }
      assert FirstFailure(product, tail) == FirstFailure(product, last);
      if IsBlank(product.brand) {
        errorMessage := BrandRequired;
        return false;
      }
      errorMessage := "";
      return true;
    }

    /**
     * `handleSubmit`: nothing is sent unless validation passes; the body follows `Multipart`,
     * and the page returns to the product list after a successful update.
     */
    method HandleSubmit(succeeded: bool) returns (sent: Option<seq<Entry>>, alert: string, navigateTo: Option<string>)
      modifies this`errorMessage
      ensures sent.Some? <==> InputsPass(AsForm(product))
      ensures errorMessage == FirstFailure(product, CheckOrder).GetOr("")
      ensures sent.Some? ==> sent.value == Multipart(product, image)
      ensures sent.Some? && succeeded ==> alert == "Product updated successfully!" && navigateTo == Some(ProductsRoute)
      ensures sent.Some? && !succeeded ==> alert == UpdateFailed && navigateTo == None
      ensures sent.None? ==> alert == "" && navigateTo == None
    {
      var ok := ValidateInputs();
      EditPassesIff(product);
      if !ok {
        return None, "", None;
      }
      sent := Some(Multipart(product, image));
      if succeeded {
        alert, navigateTo := "Product updated successfully!", Some(ProductsRoute);
      } else {
        alert, navigateTo := UpdateFailed, None;
      }
    }
  }
}
