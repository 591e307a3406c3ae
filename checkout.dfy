/** The checkout page: a four-step wizard over the cart, the proof-of-
    transfer upload check, the client-side pricing, and the order
    submission with its effects on the cart. The server's answer and the
    upload request's fate are parameters. */
module Checkout {
  import opened Common
  import opened Text
  import opened Schema
  import opened Cart
  import opened Orders

  // ---- The wizard ----

  datatype Step = Shipping | Payment | Review | Confirmation

  /** The `steps` array, in display order. */
  const Steps: seq<Step> := [Shipping, Step.Payment, Review, Confirmation]

  /** `steps.findIndex(step => step.id === s)`; every step is in the array. */
  function IndexOf(s: Step): (i: nat)
    ensures i < |Steps| && Steps[i] == s
    ensures forall j :: 0 <= j < |Steps| && Steps[j] == s ==> j == i
  {
    match s
    case Shipping => 0
    case Payment => 1
    case Review => 2
    case Confirmation => 3
  }

  /** `handleNextStep`: one step on, nothing from the last step. */
  function NextStep(s: Step): Step {
    if IndexOf(s) < |Steps| - 1 then Steps[IndexOf(s) + 1] else s
  }

  /** `handlePreviousStep`: one step back, nothing from the first step. */
  function PreviousStep(s: Step): Step {
    if IndexOf(s) > 0 then Steps[IndexOf(s) - 1] else s
  }

  /** Next moves exactly one place on except at confirmation, where it stays;
      previous moves one place back except at shipping. */
  lemma StepMoves(s: Step)
    ensures s != Confirmation ==> IndexOf(NextStep(s)) == IndexOf(s) + 1
    ensures NextStep(Confirmation) == Confirmation
    ensures s != Shipping ==> IndexOf(PreviousStep(s)) == IndexOf(s) - 1
    ensures PreviousStep(Shipping) == Shipping
  {
  }

  /** Going on and then back returns to the same step, from any step but
      the last; going back and then on, from any step but the first. */
  lemma NextThenPrevious(s: Step)
    ensures s != Confirmation ==> PreviousStep(NextStep(s)) == s
    ensures s != Shipping ==> NextStep(PreviousStep(s)) == s
  {
    StepMoves(s);
    StepMoves(NextStep(s));
    StepMoves(PreviousStep(s));
  }

  /** Three presses of Next take the wizard from shipping to confirmation. */
  lemma ThreeStepsToConfirmation()
    ensures NextStep(NextStep(NextStep(Shipping))) == Confirmation
    ensures NextStep(Shipping) == Step.Payment && NextStep(Step.Payment) == Review
  {
  }

  // ---- Pricing ----

  /** 8% of the subtotal; JavaScript floating point is taken as exact. */
  function Tax(subtotal: real): real {
    subtotal * 0.08
  }

  /** Free shipping strictly above 50, otherwise 9.99. */
  function ShippingFee(subtotal: real): (r: real)
    ensures r == 0.0 <==> subtotal > 50.0
    ensures r == 0.0 || r == 9.99
  {
    if subtotal > 50.0 then 0.0 else 9.99
  }

  function Total(subtotal: real): (r: real)
    ensures subtotal > 50.0 ==> r == subtotal * 1.08
    ensures subtotal <= 50.0 ==> r == subtotal * 1.08 + 9.99
  {
    subtotal + Tax(subtotal) + ShippingFee(subtotal)
  }

  /** A basket of exactly 50 pays shipping, and the total is not monotone
      in the subtotal: crossing the threshold lowers it. */
  lemma ShippingThreshold()
    ensures ShippingFee(50.0) == 9.99 && ShippingFee(50.01) == 0.0
    ensures Total(50.01) < Total(50.0)
  {
  }

  /** Above the threshold, and below it, the total does grow with the
      subtotal. */
  lemma TotalMonotoneOnEachSide(a: real, b: real)
    requires a <= b
    requires (a > 50.0) == (b > 50.0)
    ensures Total(a) <= Total(b)
  {
  }

  // ---- Proof of transfer ----

  /** The browser's view of a chosen file: its MIME type and size in bytes. */
  datatype File = File(name: string, mimeType: string, size: int)

  const AllowedTypes: seq<string> := ["application/pdf", "image/jpeg", "image/jpg", "image/png"]

  const MaxFileSize: int := 10 * 1024 * 1024

  /** The upload check: the error to show, or None for an accepted file.
      The type is tested before the size. */
  function FileProblem(f: File): (r: Option<string>)
    ensures r.None? <==> f.mimeType in AllowedTypes && f.size <= MaxFileSize
    ensures f.mimeType !in AllowedTypes ==> r == Some("Please upload a PDF, JPG, or PNG file")
    ensures f.mimeType in AllowedTypes && f.size > MaxFileSize ==> r == Some("File size must be less than 10MB")
  {
    if f.mimeType !in AllowedTypes then Some("Please upload a PDF, JPG, or PNG file")
    else if f.size > MaxFileSize then Some("File size must be less than 10MB")
    else None
  }

  // ---- The order request ----

  datatype ShippingAddress = ShippingAddress(
    firstName: string, lastName: string, address: string, city: string,
    state: string, zipCode: string, country: string, phone: string)

  function Field(key: string, value: string): string {
    "\"" + key + "\":\"" + value + "\""
  }

  /** The address object as it travels in the request body. */
  function AddressText(a: ShippingAddress): (r: string)
    ensures |r| >= 2 && r[0] == '{' && r[|r| - 1] == '}'
  {
    "{" + Field("firstName", a.firstName) + "," + Field("lastName", a.lastName) + "," +
    Field("address", a.address) + "," + Field("city", a.city) + "," + Field("state", a.state) + "," +
    Field("zipCode", a.zipCode) + "," + Field("country", a.country) + "," + Field("phone", a.phone) + "}"
  }

  /** `items.map(...)`: product, quantity and price of each cart line. */
  function RequestLines(items: seq<CartItem>): (r: seq<RequestItem>)
    ensures |r| == |items|
    ensures forall k :: 0 <= k < |items| ==>
      r[k] == RequestItem(items[k].productId, items[k].quantity, items[k].price)
  {
    seq(|items|, k requires 0 <= k < |items| => RequestItem(items[k].productId, items[k].quantity, items[k].price))
  }

  /** The body `handlePlaceOrder` posts. */
  function OrderBody(items: seq<CartItem>, address: ShippingAddress, paymentMethod: string, notes: string): OrderRequest {
    var subtotal := SumPrices(items);
    OrderRequest(Some(RequestLines(items)), Some(AddressText(address)), Some(paymentMethod),
                 subtotal, Tax(subtotal), ShippingFee(subtotal), Total(subtotal), Some(notes))
  }

  /** The four payment options the page offers. */
  const PaymentOptions: seq<string> := ["credit_card", "debit_card", "paypal", "bank_transfer"]

  /** Every option the page offers names a payment method the order handler
      accepts once it upper-cases it. */
  lemma PaymentOptionsAreAccepted(k: nat)
    requires k < |PaymentOptions|
    ensures ParsePaymentMethod(Upper(PaymentOptions[k])).Some?
  {
    var m := PaymentOptions[k];
    if k == 0 {
      assert Upper(m) == "CREDIT_CARD";
    } else if k == 1 {
      assert Upper(m) == "DEBIT_CARD";
    } else if k == 2 {
      assert Upper(m) == "PAYPAL";
    } else {
      assert Upper(m) == "BANK_TRANSFER";
    }
  }

  /** A body built from a non-empty cart with one of the page's payment
      options passes every request check of the order handler that does not
      depend on the product table, and carries the client's pricing. */
  lemma OrderBodyPassesRequestChecks(items: seq<CartItem>, address: ShippingAddress, k: nat, notes: string)
    requires |items| > 0 && k < |PaymentOptions|
    ensures var b := OrderBody(items, address, PaymentOptions[k], notes);
      && b.items.Some? && |b.items.value| > 0
      && Filled(b.shippingAddress) && Filled(b.paymentMethod)
      && ParsePaymentMethod(Upper(b.paymentMethod.value)).Some?
      && b.total == b.subtotal + b.tax + b.shipping
      && b.subtotal == SumPrices(items)
  {
    PaymentOptionsAreAccepted(k);
  }

  /** What the order handler stores from a posted body: one order line per
      cart line with that line's product, quantity and price, and the
      page's subtotal, tax, shipping and total on the order row. */
  lemma CartLinesStored(items: seq<CartItem>, address: ShippingAddress, paymentMethod: string, notes: string,
                        userId: string, orderId: string, now: int)
    ensures var b := OrderBody(items, address, paymentMethod, notes);
      && |LineItems(orderId, b.items.value)| == |items|
      && (forall k :: 0 <= k < |items| ==>
            LineItems(orderId, b.items.value)[k] == OrderItem(orderId, items[k].productId, items[k].quantity, items[k].price))
      && var o := NewOrder(userId, orderId, b, now);
         o.subtotal == SumPrices(items) && o.tax == Tax(SumPrices(items))
         && o.shipping == ShippingFee(SumPrices(items)) && o.total == Total(SumPrices(items))
         && o.status == Pending && o.shippingAddress == AddressText(address)
         && o.billingAddress == AddressText(address)
  {
  }

  // ---- The page ----

  /** The order request's fate: the handler answered with a 2xx status and
      this order id, answered otherwise, or the request threw. */
  datatype OrderOutcome = OrderOk(orderId: string) | OrderNotOk | OrderThrew

  /** The proof-of-transfer request's fate; its status is never inspected. */
  datatype UploadOutcome = UploadAnswered | UploadThrew

  class CheckoutPage {
    var currentStep: Step
    var shippingAddress: ShippingAddress
    var paymentMethod: string
    var bankTransferFile: Option<File>
    var orderNotes: string
    var uploadError: string
    var uploadProgress: int
    var isLoading: bool
    const cart: CartStore

    constructor (cart: CartStore)
      ensures this.cart == cart
      ensures currentStep == Shipping && paymentMethod == "credit_card" && bankTransferFile.None?
      ensures shippingAddress == ShippingAddress("", "", "", "", "", "", "US", "")
      ensures orderNotes == "" && uploadError == "" && uploadProgress == 0 && !isLoading
    {
      this.cart := cart;
      currentStep := Shipping;
      shippingAddress := ShippingAddress("", "", "", "", "", "", "US", "");
      paymentMethod := "credit_card";
      bankTransferFile := None;
      orderNotes := "";
      uploadError := "";
      uploadProgress := 0;
      isLoading := false;
    }

    method HandleNextStep()
      modifies this`currentStep
      ensures currentStep == NextStep(old(currentStep))
    {
      var i := IndexOf(currentStep);
      if i < |Steps| - 1 {
        currentStep := Steps[i + 1];
      }
    }

    method HandlePreviousStep()
      modifies this`currentStep
      ensures currentStep == PreviousStep(old(currentStep))
    {
      var i := IndexOf(currentStep);
      if i > 0 {
        currentStep := Steps[i - 1];
      }
    }

    /** `handleFileUpload` with the first chosen file, if any. A rejected
        file sets the error and leaves the stored file as it was; an
        accepted one replaces it and clears the error. */
    method HandleFileUpload(file: Option<File>)
      modifies this`bankTransferFile, this`uploadError
      ensures file.None? ==> bankTransferFile == old(bankTransferFile) && uploadError == old(uploadError)
      ensures file.Some? && FileProblem(file.value).Some? ==>
        bankTransferFile == old(bankTransferFile) && uploadError == FileProblem(file.value).value
      ensures file.Some? && FileProblem(file.value).None? ==>
        bankTransferFile == file && uploadError == ""
    {
      if file.Some? {
        if file.value.mimeType !in AllowedTypes {
          uploadError := "Please upload a PDF, JPG, or PNG file";
          return;
        }
        if file.value.size > MaxFileSize {
          uploadError := "File size must be less than 10MB";
          return;
        }
        bankTransferFile := file;
        uploadError := "";
      }
    }

    method RemoveUploadedFile()
      modifies this`bankTransferFile, this`uploadProgress
      ensures bankTransferFile.None? && uploadProgress == 0
    {
      bankTransferFile := None;
      uploadProgress := 0;
    }

    /** `handlePlaceOrder`. Returns the body it posts (None when it posts
        nothing) and whether it posted the proof of transfer. The cart is
        cleared and the wizard moves to confirmation only after a 2xx answer
        and an upload, if one was due, that did not throw. */
    method HandlePlaceOrder(order: OrderOutcome, upload: UploadOutcome) returns (sent: Option<OrderRequest>, uploaded: bool)
      modifies this`isLoading, this`uploadError, this`currentStep, cart
      ensures !isLoading
      ensures old(paymentMethod) == "bank_transfer" && old(bankTransferFile).None? ==>
        && sent.None? && !uploaded
        && uploadError == "Please upload proof of transfer for bank transfer payment"
        && cart.items == old(cart.items) && currentStep == old(currentStep)
      ensures !(old(paymentMethod) == "bank_transfer" && old(bankTransferFile).None?) ==>
        && sent == Some(OrderBody(old(cart.items), old(shippingAddress), old(paymentMethod), old(orderNotes)))
        && uploadError == old(uploadError)
        && uploaded == (order.OrderOk? && paymentMethod == "bank_transfer")
        && (if order.OrderOk? && !(uploaded && upload.UploadThrew?)
            then cart.items == [] && currentStep == Confirmation
            else cart.items == old(cart.items) && currentStep == old(currentStep))
    {
      var body := OrderBody(cart.items, shippingAddress, paymentMethod, orderNotes);
      isLoading := true;
      if paymentMethod == "bank_transfer" && bankTransferFile.None? {
        uploadError := "Please upload proof of transfer for bank transfer payment";
        isLoading := false;
        return None, false;
      }
      sent := Some(body);
      uploaded := false;
      if order.OrderOk? {
        uploaded := AfterOrderPlaced(upload);
      }
      isLoading := false;
    }

    /** The success branch: post the proof of transfer when one is due, then
        clear the cart and show the confirmation, unless that post threw. */
    method AfterOrderPlaced(upload: UploadOutcome) returns (uploaded: bool)
      modifies this`currentStep, cart
      ensures uploaded == (paymentMethod == "bank_transfer" && bankTransferFile.Some?)
      ensures !(uploaded && upload.UploadThrew?) ==> cart.items == [] && currentStep == Confirmation
      ensures uploaded && upload.UploadThrew? ==> cart.items == old(cart.items) && currentStep == old(currentStep)
    {
      uploaded := paymentMethod == "bank_transfer" && bankTransferFile.Some?;
      if uploaded && upload.UploadThrew? {
        return;
      }
      cart.ClearCart();
      currentStep := Confirmation;
    }
  }
}
