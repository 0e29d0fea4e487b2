/** The checkout workflow of the order page (Order.js): three steps (product
    summary, address, confirmation), an address store that is fetched, added to
    and selected from, the gates that enable Next and Back, and the submission of
    the order. Each asynchronous handler is split into the part that runs when it
    is called, which returns the request it sends, and a `Complete...` method
    that applies the server's result. */
module Checkout {
  import opened Common
  import opened Text
  import ProductDetails

  /** An address as the server stores it (`id` assigned by the server). */
  datatype Address = Address(
    id: string,
    name: string,
    contactNumber: string,
    street: string,
    city: string,
    state: string,
    zipCode: string,
    landmark: string)

  /** The new-address form, before the server has assigned an id. */
  datatype AddressDraft = AddressDraft(
    name: string,
    contactNumber: string,
    street: string,
    city: string,
    state: string,
    zipCode: string,
    landmark: string)

  const EmptyDraft := AddressDraft("", "", "", "", "", "", "")

  /** The navigation state the page was opened with (`location.state`). */
  datatype Entry = Entry(product: Option<ProductDetails.ProductSnapshot>, quantity: int, totalAmount: real)

  /** The body of `POST /orders`. */
  datatype OrderRequest = OrderRequest(addressId: string, productId: string, quantity: int)

  /** What a handler sends to the server, if anything. */
  datatype Request = NoRequest | FetchAddresses | PostAddress(draft: AddressDraft) | PostOrder(order: OrderRequest)

  const MissingContextMessage := "Product details are missing. Please select a product to order."
  const MandatoryFieldsMessage := "Please fill all mandatory address fields."
  const ContactNumberMessage := "Contact number must be a 10-digit number."
  const ZipCodeMessage := "Zip code must be a 6-digit number."
  const AddressFetchFailedMessage := "Failed to load addresses. Please add a new one."
  const AddressAddFailedMessage := "Failed to add address. Please check your input."
  const SelectAddressMessage := "Please select an address or add a new one."
  const OrderPlacedMessage := "Order placed successfully"
  const OrderInvalidResponseMessage := "Order placement failed: Invalid response."
  const OrderFailedMessage := "Failed to place order. Please try again."

  /** The page's guard `!product || !quantity || !totalAmount`: only an absent
      product or a zero quantity or total is falsy. */
  predicate MissingContext(e: Entry) {
    e.product.None? || e.quantity == 0 || e.totalAmount == 0.0
  }

  /** The entry the product page's hand-off produces. */
  function EntryOf(h: ProductDetails.Handoff): Entry {
    Entry(Some(h.product), h.quantity, h.totalAmount)
  }

  /** Every hand-off the product page navigates with opens the checkout, except
      for a product priced 0, whose total is 0 and so reads as missing. */
  lemma HandoffOpensCheckout(p: Product, q: ProductDetails.Quantity)
    requires ProductDetails.PlaceOrder(Some(p), q).Ok?
    ensures var h := ProductDetails.PlaceOrder(Some(p), q).value;
            MissingContext(EntryOf(h)) <==> p.price == 0.0
  {
  }

  predicate MissingMandatoryField(d: AddressDraft) {
    d.name == "" || d.contactNumber == "" || d.street == "" || d.city == "" || d.state == "" || d.zipCode == ""
  }

  /** The checks `handleAddAddress` runs before posting, in their order: the
      message of the first that fails, or `None` when the draft may be sent. */
  function ValidateAddress(d: AddressDraft): (r: Option<string>)
    ensures r == Some(MandatoryFieldsMessage) <==> MissingMandatoryField(d)
    ensures r == Some(ContactNumberMessage) <==>
              !MissingMandatoryField(d) && !DigitsOfLength(d.contactNumber, 10)
    ensures r == Some(ZipCodeMessage) <==>
              !MissingMandatoryField(d) && DigitsOfLength(d.contactNumber, 10) && !DigitsOfLength(d.zipCode, 6)
    ensures r.None? <==>
              !MissingMandatoryField(d) && DigitsOfLength(d.contactNumber, 10) && DigitsOfLength(d.zipCode, 6)
  {
    if MissingMandatoryField(d) then Some(MandatoryFieldsMessage)
    else if !DigitsOfLength(d.contactNumber, 10) then Some(ContactNumberMessage)
    else if !DigitsOfLength(d.zipCode, 6) then Some(ZipCodeMessage)
    else None
  }

  /** The landmark never decides whether a draft is accepted. */
  lemma LandmarkIsOptional(d: AddressDraft, landmark: string)
    ensures ValidateAddress(d.(landmark := landmark)) == ValidateAddress(d)
  {
  }

  /** `addresses.find((addr) => addr.id === id)`. */
  function FindById(addresses: seq<Address>, id: string): (r: Option<Address>)
    ensures r.None? <==> forall k :: 0 <= k < |addresses| ==> addresses[k].id != id
    ensures r.Some? ==> exists k :: 0 <= k < |addresses| && addresses[k] == r.value &&
                                    r.value.id == id &&
                                    forall j :: 0 <= j < k ==> addresses[j].id != id
  {
    if addresses == [] then None
    else if addresses[0].id == id then Some(addresses[0])
    else
      var r := FindById(addresses[1..], id);
      assert r.Some? ==> exists k :: 0 <= k < |addresses| && addresses[k] == r.value &&
                                     forall j :: 0 <= j < k ==> addresses[j].id != id by {
        if r.Some? {
          var k :| 0 <= k < |addresses| - 1 && addresses[1..][k] == r.value &&
                   forall j :: 0 <= j < k ==> addresses[1..][j].id != id;
          assert addresses[k + 1] == r.value;
          forall j | 0 <= j < k + 1 ensures addresses[j].id != id {
            if j > 0 { assert addresses[j] == addresses[1..][j - 1]; }
          }
        }
      }
      r
  }

  /** `isNextButtonDisabled()`. */
  predicate NextDisabled(step: nat, entry: Entry, selected: Option<Address>, loading: bool) {
    || (step == 0 && MissingContext(entry))
    || (step == 1 && (selected.None? || loading))
    || (step == 2 && loading)
  }

  /** The Back button's `disabled` expression. */
  predicate BackDisabled(step: nat, orderConfirmed: bool) {
    step == 0 || orderConfirmed
  }

  /** On the last step the button runs `handleReset` once the order is
      confirmed, otherwise `handleNext`; its extra `orderConfirmed && loading`
      condition adds nothing to `isNextButtonDisabled()` there. */
  lemma FinalButtonGate(entry: Entry, selected: Option<Address>, loading: bool, orderConfirmed: bool)
    ensures (NextDisabled(2, entry, selected, loading) || (orderConfirmed && loading)) <==> loading
  {
  }

  /** The state of the order page. */
  class Checkout {
    const entry: Entry
    var activeStep: nat
    var addresses: seq<Address>
    var selectedAddress: Option<Address>
    var dialogOpen: bool
    var newAddress: AddressDraft
    var orderConfirmed: bool
    var loading: bool
    var error: string

    /** The step is one of the three; a confirmed order is on the last step;
        the last step always has an address to deliver to. */
    ghost predicate Valid()
      reads this
    {
      && activeStep <= 2
      && (orderConfirmed ==> activeStep == 2)
      && (activeStep == 2 ==> selectedAddress.Some?)
    }

    /** The workflow is shown (and its buttons exist) only with a product context. */
    predicate Ready() {
      !MissingContext(entry)
    }

    /** The page as first rendered; a missing context shows its message
        (the delayed redirect to the catalogue is left out). */
    constructor (entry: Entry)
      ensures this.entry == entry && Valid()
      ensures activeStep == 0 && addresses == [] && selectedAddress == None
      ensures !dialogOpen && newAddress == EmptyDraft && !orderConfirmed && !loading
      ensures error == if MissingContext(entry) then MissingContextMessage else ""
    {
      this.entry := entry;
      activeStep := 0;
      addresses := [];
      selectedAddress := None;
      dialogOpen := false;
      newAddress := EmptyDraft;
      orderConfirmed := false;
      loading := false;
      error := if MissingContext(entry) then MissingContextMessage else "";
    }

    predicate NextButtonDisabled()
      reads this
    {
      NextDisabled(activeStep, entry, selectedAddress, loading)
    }

    predicate BackButtonDisabled()
      reads this
    {
      BackDisabled(activeStep, orderConfirmed)
    }

    /** `handleNext`. Entering the address step starts `fetchAddresses`
        (its effect sets `loading` and clears `error`). On the last step the
        button is disabled while loading and runs `handleReset` once the order
        is confirmed, so a submission starts only from an idle, unconfirmed page. */
    method HandleNext() returns (request: Request)
      requires Valid() && Ready()
      requires activeStep == 2 ==> !loading && !orderConfirmed
      modifies this`activeStep, this`loading, this`error
      ensures Valid()
      ensures old(activeStep) == 0 ==>
                activeStep == 1 && loading && error == "" && request == FetchAddresses
      ensures old(activeStep) == 1 && selectedAddress.None? ==>
                activeStep == 1 && loading == old(loading) && error == SelectAddressMessage && request == NoRequest
      ensures old(activeStep) == 1 && selectedAddress.Some? ==>
                activeStep == 2 && loading == old(loading) && error == "" && request == NoRequest
      ensures old(activeStep) == 2 ==>
                && activeStep == 2 && loading && error == ""
                && request == PostOrder(OrderRequest(selectedAddress.value.id, entry.product.value.id, entry.quantity))
      ensures !old(NextButtonDisabled()) && old(activeStep) < 2 ==> activeStep == old(activeStep) + 1
    {
      error := "";
      request := NoRequest;
      if activeStep == 0 {
        activeStep := 1;
        loading := true;
        request := FetchAddresses;
      } else if activeStep == 1 {
        if selectedAddress.None? {
          error := SelectAddressMessage;
          return;
        }
        activeStep := 2;
      } else {
        loading := true;
        request := PostOrder(OrderRequest(selectedAddress.value.id, entry.product.value.id, entry.quantity));
      }
    }

    /** `handleBack`; arriving back on the address step re-runs `fetchAddresses`. */
    method HandleBack() returns (request: Request)
      requires Valid() && Ready() && !BackButtonDisabled()
      modifies this`activeStep, this`loading, this`error
      ensures Valid()
      ensures activeStep == old(activeStep) - 1
      ensures activeStep == 1 ==> loading && error == "" && request == FetchAddresses
      ensures activeStep == 0 ==> loading == old(loading) && error == old(error) && request == NoRequest
    {
      activeStep := activeStep - 1;
      request := NoRequest;
      if activeStep == 1 {
        loading := true;
        error := "";
        request := FetchAddresses;
      }
    }

    /** The end of `fetchAddresses`: the server's list replaces the store, and
        its first address is selected only when nothing was selected. */
    method CompleteFetchAddresses(result: Outcome<seq<Address>>)
      requires Valid()
      modifies this`addresses, this`selectedAddress, this`loading, this`error
      ensures Valid() && !loading
      ensures result.Delivered? ==>
                && addresses == result.body
                && error == old(error)
                && selectedAddress == if |result.body| > 0 && old(selectedAddress).None?
                                      then Some(result.body[0]) else old(selectedAddress)
      ensures result.Rejected? ==>
                addresses == old(addresses) && selectedAddress == old(selectedAddress) && error == AddressFetchFailedMessage
    {
      match result {
        case Delivered(data) =>
          addresses := data;
          if |data| > 0 && selectedAddress.None? {
            selectedAddress := Some(data[0]);
          }
        case Rejected(_) =>
          error := AddressFetchFailedMessage;
      }
      loading := false;
    }

    /** The radio group's `onChange` (rendered on the address step only). */
    method SelectAddress(id: string)
      requires Valid() && activeStep == 1
      modifies this`selectedAddress
      ensures Valid()
      ensures selectedAddress == FindById(addresses, id)
    {
      selectedAddress := FindById(addresses, id);
    }

    /** The "Add New Address" button. */
    method OpenAddressDialog()
      requires Valid()
      modifies this`dialogOpen
      ensures Valid() && dialogOpen
    {
      dialogOpen := true;
    }

    /** `handleAddAddress` up to the post: the draft is checked and, if it
        passes, sent. Its button is disabled while loading. */
    method BeginAddAddress() returns (request: Request)
      requires Valid() && dialogOpen && !loading
      modifies this`loading, this`error
      ensures Valid()
      ensures ValidateAddress(newAddress).Some? ==>
                error == ValidateAddress(newAddress).value && !loading && request == NoRequest
      ensures ValidateAddress(newAddress).None? ==>
                error == "" && loading && request == PostAddress(newAddress)
    {
      error := "";
      var problem := ValidateAddress(newAddress);
      if problem.Some? {
        error := problem.value;
        request := NoRequest;
      } else {
        loading := true;
        request := PostAddress(newAddress);
      }
    }

    /** The end of `handleAddAddress`: a created address is appended and
        selected and the form is reset; a failure keeps the draft for correction. */
    method CompleteAddAddress(result: Outcome<Address>)
      requires Valid()
      modifies this`addresses, this`selectedAddress, this`dialogOpen, this`newAddress, this`loading, this`error
      ensures Valid() && !loading
      ensures result.Delivered? ==>
                && addresses == old(addresses) + [result.body]
                && selectedAddress == Some(result.body)
                && !dialogOpen && newAddress == EmptyDraft && error == ""
      ensures result.Rejected? ==>
                && addresses == old(addresses) && selectedAddress == old(selectedAddress)
                && dialogOpen == old(dialogOpen) && newAddress == old(newAddress)
                && error == MessageOr(result.serverMessage, AddressAddFailedMessage)
    {
      match result {
        case Delivered(added) =>
          addresses := addresses + [added];
          selectedAddress := Some(added);
          dialogOpen := false;
          newAddress := EmptyDraft;
          error := "";
        case Rejected(m) =>
          error := MessageOr(m, AddressAddFailedMessage);
      }
      loading := false;
    }

    /** The end of the submission `handleNext` started on the last step: only
        the exact success message confirms the order. */
    method CompletePlaceOrder(result: Outcome<Reply>)
      requires Valid() && activeStep == 2 && !orderConfirmed
      modifies this`orderConfirmed, this`loading, this`error
      ensures Valid() && !loading && activeStep == 2
      ensures orderConfirmed <==> result == Delivered(Reply(Some(OrderPlacedMessage)))
      ensures var v := Classify(result, OrderPlacedMessage, OrderInvalidResponseMessage, OrderFailedMessage);
              error == if v.Accepted? then old(error) else v.message
    {
      var v := Classify(result, OrderPlacedMessage, OrderInvalidResponseMessage, OrderFailedMessage);
      if v.Accepted? {
        orderConfirmed := true;
      } else {
        error := v.message;
      }
      loading := false;
    }

    /** `handleReset` ("Place New Order"): back to the first step with no
        selection and an empty form; the fetched addresses are kept. */
    method HandleReset()
      requires Valid()
      modifies this`activeStep, this`orderConfirmed, this`selectedAddress, this`newAddress, this`error
      ensures Valid()
      ensures activeStep == 0 && !orderConfirmed && selectedAddress == None && newAddress == EmptyDraft && error == ""
    {
      activeStep := 0;
      orderConfirmed := false;
      selectedAddress := None;
      newAddress := EmptyDraft;
      error := "";
    }
  }

  /** A whole checkout: a product with id "p1" priced 500, quantity 3, one stored
      address "a1", and a server that accepts the order. */
  method HappyPathScenario() returns (total: real, sent: Request, confirmed: bool)
    ensures total == 1500.0
    ensures sent == PostOrder(OrderRequest("a1", "p1", 3))
    ensures confirmed
  {
    var p := Product("p1", "Phone", 500.0, "", "", "ELECTRONICS", "Acme", 10, 0);
    var placed := ProductDetails.PlaceOrder(Some(p), ProductDetails.Count(3));
    total := placed.value.totalAmount;
    var c := new Checkout(EntryOf(placed.value));
    var r := c.HandleNext();
    assert r == FetchAddresses;
    var a1 := Address("a1", "Home", "9876543210", "1 Main St", "Pune", "MH", "411001", "");
    c.CompleteFetchAddresses(Delivered([a1]));
    assert c.selectedAddress == Some(a1);
    r := c.HandleNext();
    assert c.activeStep == 2;
    sent := c.HandleNext();
    c.CompletePlaceOrder(Delivered(Reply(Some(OrderPlacedMessage))));
    confirmed := c.orderConfirmed;
  }

  /** A reply without the success message, even on a 2xx status, fails the
      submission: the page stays on the last step, unconfirmed, and idle. */
  method RejectedReplyScenario(a: Address, q: int) returns (step: nat, confirmed: bool, loading: bool, shown: string)
    requires q != 0
    ensures step == 2 && !confirmed && !loading && shown == "insufficient stock"
  {
    var snapshot := ProductDetails.ProductSnapshot("p1", "Phone", 500.0, "", "", "ELECTRONICS", "Acme", 10);
    var c := new Checkout(Entry(Some(snapshot), q, 500.0 * q as real));
    var r := c.HandleNext();
    c.CompleteFetchAddresses(Delivered([a]));
    r := c.HandleNext();
    r := c.HandleNext();
    c.CompletePlaceOrder(Delivered(Reply(Some("insufficient stock"))));
    step, confirmed, loading, shown := c.activeStep, c.orderConfirmed, c.loading, c.error;
  }
}
