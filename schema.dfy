/** The persisted rows the handlers read and write, and the session that
    the authentication layer resolves for each request. Money is a `real`
    number of dollars (the source's JavaScript numbers, without rounding);
    stock, quantities and timestamps are integers. */
module Schema {
  import opened Common

  datatype Role = Buyer | Admin

  function RoleName(r: Role): string {
    match r
    case Buyer => "BUYER"
    case Admin => "ADMIN"
  }

  /** The enum's values as strings: `Object.values(Role).includes(s)`. */
  function ParseRole(s: string): (r: Option<Role>)
    ensures r.Some? ==> RoleName(r.value) == s
    ensures r.None? ==> s != "BUYER" && s != "ADMIN"
  {
    if s == "BUYER" then Some(Buyer)
    else if s == "ADMIN" then Some(Admin)
    else None
  }

  datatype OrderStatus = Pending | Confirmed | Processing | Shipped | Delivered | Cancelled | Refunded

  function StatusName(s: OrderStatus): string {
    match s
    case Pending => "PENDING"
    case Confirmed => "CONFIRMED"
    case Processing => "PROCESSING"
    case Shipped => "SHIPPED"
    case Delivered => "DELIVERED"
    case Cancelled => "CANCELLED"
    case Refunded => "REFUNDED"
  }

  /** A status filter the database accepts: one of the enum's spellings. */
  function ParseStatus(s: string): (r: Option<OrderStatus>)
    ensures r.Some? ==> StatusName(r.value) == s
    ensures r.None? ==> forall t: OrderStatus :: StatusName(t) != s
  {
    if s == "PENDING" then Some(Pending)
    else if s == "CONFIRMED" then Some(Confirmed)
    else if s == "PROCESSING" then Some(Processing)
    else if s == "SHIPPED" then Some(Shipped)
    else if s == "DELIVERED" then Some(Delivered)
    else if s == "CANCELLED" then Some(Cancelled)
    else if s == "REFUNDED" then Some(Refunded)
    else None
  }

  datatype PaymentMethod = CreditCard | DebitCard | Paypal | BankTransfer

  function MethodName(m: PaymentMethod): string {
    match m
    case CreditCard => "CREDIT_CARD"
    case DebitCard => "DEBIT_CARD"
    case Paypal => "PAYPAL"
    case BankTransfer => "BANK_TRANSFER"
  }

  /** The payment-method enum spelled in upper case, as the database accepts
      it: the method stored is the one whose name is the text given. */
  function ParsePaymentMethod(s: string): (r: Option<PaymentMethod>)
    ensures r.Some? <==> s in {"CREDIT_CARD", "DEBIT_CARD", "PAYPAL", "BANK_TRANSFER"}
    ensures r.Some? ==> MethodName(r.value) == s
    ensures r.None? ==> forall m: PaymentMethod :: MethodName(m) != s
  {
    if s == "CREDIT_CARD" then Some(CreditCard)
    else if s == "DEBIT_CARD" then Some(DebitCard)
    else if s == "PAYPAL" then Some(Paypal)
    else if s == "BANK_TRANSFER" then Some(BankTransfer)
    else None
  }

  datatype PaymentStatus = PaymentPending

  datatype Category = Category(id: string, name: string, description: Option<string>)

  datatype Product = Product(
    id: string,
    name: string,
    description: Option<string>,
    price: real,
    stock: int,
    sku: Option<string>,
    featured: bool,
    categoryId: string,
    image: Option<string>,
    images: Option<string>,
    createdAt: int)

  datatype User = User(
    id: string,
    name: Option<string>,
    email: string,
    password: string,
    role: Role,
    emailVerified: bool,
    createdAt: int)

  datatype Order = Order(
    id: string,
    userId: string,
    status: OrderStatus,
    subtotal: real,
    tax: real,
    shipping: real,
    total: real,
    shippingAddress: string,
    billingAddress: string,
    notes: Option<string>,
    createdAt: int)

  datatype OrderItem = OrderItem(orderId: string, productId: string, quantity: int, price: real)

  datatype Payment = Payment(orderId: string, amount: real, paymentMethod: PaymentMethod, status: PaymentStatus)

  /** The session user as the authentication layer resolves it. */
  datatype SessionUser = SessionUser(id: string, role: string)

  /** `session?.user?.id` is truthy. */
  predicate Authenticated(session: Option<SessionUser>) {
    session.Some? && session.value.id != ""
  }

  /** The admin guard shared by every admin handler:
      `!session?.user?.id || session.user.role !== "ADMIN"` rejects. */
  predicate IsAdminSession(session: Option<SessionUser>) {
    Authenticated(session) && session.value.role == "ADMIN"
  }
}
