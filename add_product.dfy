/** The administrator's product form (AddProduct.js): its ordered checks, the
    body it posts with the price and the stock converted to numbers, how it
    reads the server's answer, and the category list it loads. */
module AddProduct {
  import opened Common
  import opened Text

  /** The form as typed: every field is text. `imageUrl` is optional. */
  datatype ProductForm = ProductForm(
    name: string,
    category: string,
    price: string,
    description: string,
    manufacturer: string,
    availableItems: string,
    imageUrl: string)

  /** The body of `POST /products`: the form with `price` read by `parseFloat`
      and `availableItems` by `parseInt(_, 10)`. A stock `None` is the NaN
      that `parseInt` gives on text with no leading digit; `JSON.stringify`
      sends it as `null`. */
  datatype ProductPayload = ProductPayload(
    name: string,
    category: string,
    price: real,
    description: string,
    manufacturer: string,
    availableItems: Option<int>,
    imageUrl: string)

  const EmptyForm := ProductForm("", "", "", "", "", "", "")

  const FieldsRequiredMessage := "All fields are required."
  const PriceMessage := "Price must be a positive number."
  const StockMessage := "Available items must be a positive integer."
  const InvalidResponseMessage := "Failed to add product: Invalid response from server."
  const UnexpectedErrorMessage := "An unexpected error occurred while adding product."
  const CategoriesFailedMessage := "Failed to load categories."

  /** The reply `POST /products` must carry for the product to count as added. */
  function AddedMessage(name: string): string {
    "Product " + name + " added successfully"
  }

  /** The success text the form then shows. */
  function AddedNotice(name: string): string {
    AddedMessage(name) + "!"
  }

  predicate AnyRequiredEmpty(f: ProductForm) {
    || f.name == "" || f.category == "" || f.price == "" || f.description == ""
    || f.manufacturer == "" || f.availableItems == ""
  }

  /** `isNaN(price) || price <= 0`, both of which read the text with `Number`. */
  predicate PriceInvalid(price: string) {
    NumberValue(price).None? || NumberValue(price).value <= 0.0
  }

  /** `isNaN(availableItems) || parseInt(availableItems, 10) <= 0` as written:
      a `parseInt` that yields NaN makes the comparison false, so it passes. */
  predicate StockInvalidAsWritten(availableItems: string) {
    NumberValue(availableItems).None? ||
    (ParseInt(availableItems).Some? && ParseInt(availableItems).value <= 0)
  }

  /** The stock rule as intended: the text is a number and its integer parse
      exists and is positive. */
  predicate StockInvalid(availableItems: string) {
    NumberValue(availableItems).None? ||
    ParseInt(availableItems).None? || ParseInt(availableItems).value <= 0
  }

  /** The checks `handleAddProduct` runs before posting, exactly as written. */
  function ValidateProductAsWritten(f: ProductForm): (r: Option<string>)
    ensures r == Some(FieldsRequiredMessage) <==> AnyRequiredEmpty(f)
    ensures r == Some(PriceMessage) <==> !AnyRequiredEmpty(f) && PriceInvalid(f.price)
    ensures r == Some(StockMessage) <==>
              !AnyRequiredEmpty(f) && !PriceInvalid(f.price) && StockInvalidAsWritten(f.availableItems)
    ensures r.None? <==>
              !AnyRequiredEmpty(f) && !PriceInvalid(f.price) && !StockInvalidAsWritten(f.availableItems)
  {
    if AnyRequiredEmpty(f) then Some(FieldsRequiredMessage)
    else if PriceInvalid(f.price) then Some(PriceMessage)
    else if StockInvalidAsWritten(f.availableItems) then Some(StockMessage)
    else None
  }

  /** The checks with the stock rule corrected. It refuses exactly what the
      written checks refuse, plus a stock whose integer parse is NaN; whatever
      it lets through has a positive price and a positive integer stock. */
  function ValidateProduct(f: ProductForm): (r: Option<string>)
    ensures r != ValidateProductAsWritten(f) <==>
              ValidateProductAsWritten(f).None? && ParseInt(f.availableItems).None?
    ensures r != ValidateProductAsWritten(f) ==> r == Some(StockMessage)
    ensures r.None? ==> && !AnyRequiredEmpty(f)
                        && NumberValue(f.price).Some? && NumberValue(f.price).value > 0.0
                        && ParseInt(f.availableItems).Some? && ParseInt(f.availableItems).value >= 1
  {
    if AnyRequiredEmpty(f) then Some(FieldsRequiredMessage)
    else if PriceInvalid(f.price) then Some(PriceMessage)
    else if StockInvalid(f.availableItems) then Some(StockMessage)
    else None
  }

  /** The two checks differ only on a stock whose integer parse is NaN. */
  lemma CorrectionOnlyTouchesNaN(f: ProductForm)
    requires ParseInt(f.availableItems).Some?
    ensures ValidateProduct(f) == ValidateProductAsWritten(f)
  {
  }

  /** The posted body of a form that passed the checks as written: the stock
      is `parseInt`'s reading, NaN included, and a number it reads is positive. */
  function PayloadOf(f: ProductForm): (p: ProductPayload)
    requires ValidateProductAsWritten(f).None?
    ensures && p.name == f.name && p.category == f.category && p.description == f.description
            && p.manufacturer == f.manufacturer && p.imageUrl == f.imageUrl
    ensures p.price > 0.0 && Some(p.price) == NumberValue(f.price)
    ensures p.availableItems == ParseInt(f.availableItems)
    ensures p.availableItems.Some? ==> p.availableItems.value >= 1
  {
    ProductPayload(f.name, f.category, NumberValue(f.price).value, f.description, f.manufacturer,
                   ParseInt(f.availableItems), f.imageUrl)
  }

  /** A body the written checks let through carries a NaN stock exactly when
      the corrected checks would have refused the form. */
  lemma NaNStockExactlyWhenCorrectionRefuses(f: ProductForm)
    requires ValidateProductAsWritten(f).None?
    ensures PayloadOf(f).availableItems.None? <==> ValidateProduct(f) == Some(StockMessage)
    ensures ValidateProduct(f).None? ==> PayloadOf(f).availableItems.Some?
  {
  }

  /** ".5" is a number (0.5) whose integer parse is NaN: the written checks let
      it through and the body carries a NaN stock; the corrected checks refuse it. */
  lemma FractionalStockSlipsThrough()
    ensures var f := ProductForm("Lamp", "Home", "10", "A lamp", "Acme", ".5", "");
            && ValidateProductAsWritten(f).None?
            && PayloadOf(f).availableItems.None?
            && ValidateProduct(f) == Some(StockMessage)
  {
  }

  /** A stock `parseInt` can read is sent as the typed number truncated:
      "2.7" posts 2. */
  lemma PayloadStockTruncates(f: ProductForm)
    requires ValidateProductAsWritten(f).None? && ParseInt(f.availableItems).Some?
    ensures var n := PayloadOf(f).availableItems.value as real;
            var v := NumberValue(f.availableItems).value;
            n <= v < n + 1.0
  {
    ParseIntTruncatesNumber(f.availableItems);
  }

  /** The product form's state; the fields of `form` are set by their inputs. */
  class AddProductScreen {
    var form: ProductForm
    var categories: seq<string>
    var error: string
    var success: string
    var loading: bool

    constructor ()
      ensures form == EmptyForm && categories == [] && error == "" && success == "" && !loading
    {
      form := EmptyForm;
      categories := [];
      error := "";
      success := "";
      loading := false;
    }

    /** The mount effect's `fetchCategories`. */
    method CompleteFetchCategories(result: Outcome<seq<string>>)
      modifies this`categories, this`error
      ensures result.Delivered? ==> categories == result.body && error == old(error)
      ensures result.Rejected? ==> categories == old(categories) && error == CategoriesFailedMessage
    {
      match result {
        case Delivered(names) => categories := names;
        case Rejected(_) => error := CategoriesFailedMessage;
      }
    }

    /** `handleAddProduct` up to the post (the submit button is disabled while
        loading): both messages are cleared, then the first failing check is
        shown, or loading starts and the body is sent. */
    method BeginAddProduct() returns (request: Option<ProductPayload>)
      requires !loading
      modifies this`error, this`success, this`loading
      ensures success == ""
      ensures ValidateProductAsWritten(form).Some? ==>
                request == None && error == ValidateProductAsWritten(form).value && !loading
      ensures ValidateProductAsWritten(form).None? ==>
                request == Some(PayloadOf(form)) && error == "" && loading
    {
      error := "";
      success := "";
      var problem := ValidateProductAsWritten(form);
      if problem.Some? {
        error := problem.value;
        request := None;
      } else {
        loading := true;
        request := Some(PayloadOf(form));
      }
    }

    /** The end of `handleAddProduct`: only the exact creation message for this
        product's name succeeds, shows the notice and clears all seven fields;
        otherwise the form is kept and the error shown. Loading always ends. */
    method CompleteAddProduct(result: Outcome<Reply>)
      modifies this`form, this`error, this`success, this`loading
      ensures !loading
      ensures var v := Classify(result, AddedMessage(old(form.name)), InvalidResponseMessage, UnexpectedErrorMessage);
              && (v.Accepted? <==> result == Delivered(Reply(Some(AddedMessage(old(form.name))))))
              && (v.Accepted? ==> form == EmptyForm && success == AddedNotice(old(form.name)) && error == old(error))
              && (v.Refused? ==> form == old(form) && success == old(success) && error == v.message)
    {
      var v := Classify(result, AddedMessage(form.name), InvalidResponseMessage, UnexpectedErrorMessage);
      if v.Accepted? {
        success := AddedNotice(form.name);
        form := EmptyForm;
      } else {
        error := v.message;
      }
      loading := false;
    }
  }
}
