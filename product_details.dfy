/** The product page (ProductDetails.js): the quantity field, the Place Order
    guard and button, and the `{product, quantity, totalAmount}` state it hands
    to the order page. */
module ProductDetails {
  import opened Common
  import opened Text

  /** The quantity state: a number, or "" once the field has been cleared. */
  datatype Quantity = Count(n: int) | Blank

  /** The number a JavaScript comparison sees: "" coerces to 0. */
  function Numeric(q: Quantity): int {
    if q.Blank? then 0 else q.n
  }

  /** The product fields copied into the order page's navigation state. */
  datatype ProductSnapshot = ProductSnapshot(
    id: string,
    name: string,
    price: real,
    imageUrl: string,
    description: string,
    category: string,
    manufacturer: string,
    availableItems: int)

  /** The navigation state the order page receives. */
  datatype Handoff = Handoff(product: ProductSnapshot, quantity: int, totalAmount: real)

  const LoadFailedMessage := "Failed to load product details. Please try again."

  /** Every field the hand-off carries equals the loaded product's. */
  predicate CopiesProduct(s: ProductSnapshot, p: Product) {
    && s.id == p.id && s.name == p.name && s.price == p.price && s.imageUrl == p.imageUrl
    && s.description == p.description && s.category == p.category
    && s.manufacturer == p.manufacturer && s.availableItems == p.availableItems
  }

  /** The upper bound shown in the error: `product?.availableItems || 0`. */
  function StockShown(product: Option<Product>): int {
    if product.Some? then product.value.availableItems else 0
  }

  /** `handlePlaceOrder`'s decision: the hand-off to navigate with, or the
      message it sets. */
  function PlaceOrder(product: Option<Product>, quantity: Quantity): (r: Result<Handoff>)
    ensures r.Ok? <==> product.Some? && 1 <= Numeric(quantity) <= product.value.availableItems
    ensures r.Ok? ==> && quantity == Count(r.value.quantity)
                      && CopiesProduct(r.value.product, product.value)
                      && r.value.totalAmount == product.value.price * r.value.quantity as real
    ensures r.Err? ==> r.message == "Please enter a valid quantity (1 to " + IntToString(StockShown(product)) + ")."
  {
    if product.Some? && Numeric(quantity) > 0 && Numeric(quantity) <= product.value.availableItems then
      var p := product.value;
      Ok(Handoff(
        ProductSnapshot(p.id, p.name, p.price, p.imageUrl, p.description, p.category, p.manufacturer, p.availableItems),
        quantity.n,
        p.price * quantity.n as real))
    else
      Err("Please enter a valid quantity (1 to " + IntToString(StockShown(product)) + ").")
  }

  /** The Place Order button's `disabled` expression. */
  predicate PlaceOrderDisabled(quantity: Quantity, availableItems: int) {
    Numeric(quantity) <= 0 || Numeric(quantity) > availableItems || availableItems == 0
  }

  /** The button is enabled exactly when pressing it navigates to the order page. */
  lemma ButtonMatchesGuard(p: Product, quantity: Quantity)
    ensures !PlaceOrderDisabled(quantity, p.availableItems) <==> PlaceOrder(Some(p), quantity).Ok?
  {
  }

  /** The bound named in the error message reads back as the stock it shows. */
  lemma ErrorNamesStock(product: Option<Product>, quantity: Quantity)
    requires PlaceOrder(product, quantity).Err?
    ensures var m := PlaceOrder(product, quantity).message;
            var prefix := "Please enter a valid quantity (1 to ";
            |prefix| < |m| && ParseInt(m[|prefix|..]) == Some(StockShown(product))
  {
    var m := PlaceOrder(product, quantity).message;
    var prefix := "Please enter a valid quantity (1 to ";
    var shown := IntToString(StockShown(product));
    IntToStringRoundTrip(StockShown(product));
    assert m[|prefix|..] == shown + ").";
    ParseIntIgnoresSuffix(shown, ").");
  }

  /** `parseInt` stops at the first character that is not a digit. */
  lemma ParseIntIgnoresSuffix(s: string, suffix: string)
    requires ParseInt(s).Some? && SignLength(s) + LeadingDigits(s[SignLength(s)..]) == |s|
    requires |suffix| > 0 && !IsDigit(suffix[0])
    ensures ParseInt(s + suffix) == ParseInt(s)
  {
    var n := SignLength(s);
    var t := s + suffix;
    assert SignLength(t) == n;
    var body, bodyT := s[n..], t[n..];
    assert bodyT == body + suffix;
    var k := LeadingDigits(body);
    LeadingDigitsOfPrefix(body, suffix);
    assert bodyT[..k] == body[..k];
  }

  lemma {:induction false} LeadingDigitsOfPrefix(body: string, suffix: string)
    requires LeadingDigits(body) == |body|
    requires |suffix| > 0 && !IsDigit(suffix[0])
    ensures LeadingDigits(body + suffix) == |body|
  {
    if body != [] {
      assert (body + suffix)[1..] == body[1..] + suffix;
      LeadingDigitsOfPrefix(body[1..], suffix);
    } else {
      assert body + suffix == suffix;
    }
  }

  /** The product page's state. */
  class ProductPage {
    var product: Option<Product>
    var quantity: Quantity
    var loading: bool
    var error: string

    /** The quantity is never zero or negative: it is cleared or positive. */
    ghost predicate Valid()
      reads this
    {
      quantity.Count? ==> quantity.n >= 1
    }

    constructor ()
      ensures Valid()
      ensures product == None && quantity == Count(1) && loading && error == ""
    {
      product := None;
      quantity := Count(1);
      loading := true;
      error := "";
    }

    /** `fetchProductDetails` up to the request: loading starts and the error clears. */
    method BeginFetchProduct()
      modifies this`loading, this`error
      ensures loading && error == ""
    {
      loading := true;
      error := "";
    }

    /** The end of `fetchProductDetails`. */
    method CompleteFetchProduct(result: Outcome<Product>)
      modifies this`product, this`loading, this`error
      ensures !loading
      ensures result.Delivered? ==> product == Some(result.body) && error == old(error)
      ensures result.Rejected? ==> product == old(product) && error == LoadFailedMessage
    {
      match result {
        case Delivered(p) => product := Some(p);
        case Rejected(_) => error := LoadFailedMessage;
      }
      loading := false;
    }

    /** `handleQuantityChange`: a positive parse replaces the quantity, an empty
        input clears it, and any other input is ignored. */
    method HandleQuantityChange(input: string)
      requires Valid()
      modifies this`quantity
      ensures Valid()
      ensures var v := ParseInt(input);
              quantity == if v.Some? && v.value > 0 then Count(v.value)
                          else if input == "" then Blank
                          else old(quantity)
    {
      var v := ParseInt(input);
      if v.Some? && v.value > 0 {
        quantity := Count(v.value);
      } else if input == "" {
        quantity := Blank;
      }
    }

    /** `handlePlaceOrder`: navigate with the hand-off, or show the message. */
    method HandlePlaceOrder() returns (navigation: Option<Handoff>)
      modifies this`error
      ensures var r := PlaceOrder(product, quantity);
              && (navigation.Some? <==> r.Ok?)
              && (r.Ok? ==> navigation.value == r.value && error == old(error))
              && (r.Err? ==> error == r.message)
    {
      var r := PlaceOrder(product, quantity);
      if r.Ok? {
        navigation := Some(r.value);
      } else {
        navigation := None;
        error := r.message;
      }
    }
  }
}
