/**
 * The records of the sales register (types.ts). Money is an exact `real`,
 * stock, quantities and ids are `int`; optional TypeScript fields and
 * `X | null` become `Option`.
 */
module Types {

  datatype Option<+T> = None | Some(value: T)

  /** The result of JavaScript's `parseFloat` on a text field: not-a-number, or a finite value. */
  datatype ParsedFloat = NaN | Num(value: real)

  datatype Product = Product(id: int, name: string, category: string, price: real, stock: int, imageUrl: string)

  /** A product as entered in the catalog form, before an id is allocated (`Omit<Product, 'id'>`). */
  datatype ProductData = ProductData(name: string, category: string, price: real, stock: int, imageUrl: string)

  /** A cart line: a copy of the product's fields taken when it was added, plus a quantity. */
  datatype CartItem = CartItem(id: int, name: string, category: string, price: real, stock: int, imageUrl: string, quantity: int)

  datatype Customer = Customer(id: int, name: string, email: string, totalSpent: Option<real>, rewardAvailable: Option<bool>)

  /** A customer as entered in the customer form (`Omit<Customer, 'id'>`). */
  datatype CustomerData = CustomerData(name: string, email: string, totalSpent: Option<real>, rewardAvailable: Option<bool>)

  /** A parked sale; `id` and `date` are both the clock reading taken when it was held. */
  datatype HeldOrder = HeldOrder(id: int, cart: seq<CartItem>, customer: Option<Customer>, date: int)

  datatype Currency = Currency(code: string, name: string, symbol: string)

  datatype UserRole = Admin | Cashier | Salesman

  datatype User = User(id: int, name: string, email: string, password: string, role: UserRole)

  /** A user as entered in the user form (`Omit<User, 'id'>`). */
  datatype UserData = UserData(name: string, email: string, password: string, role: UserRole)

  datatype LoyaltySettings = LoyaltySettings(enabled: bool, spendThreshold: real, rewardPercentage: real)

  datatype FbrSettings = FbrSettings(enabled: bool, apiKey: string, ntn: string, posId: string, manualTaxRate: real)

  datatype View = Sales | Products | Customers | Users | Fbr

  datatype PaymentMethod = Card | Cash

  /**
   * The record of a finished sale. `date` is the clock reading of the sale.
   * `discountAmount` and `fbrInvoiceNumber` are declared but never filled in
   * by the register, and `isFbrInvoice` is left unset there (false here).
   */
  datatype CompletedOrder = CompletedOrder(
    cartItems: seq<CartItem>,
    customer: Option<Customer>,
    subtotal: real,
    discountAmount: Option<real>,
    tax: real,
    total: real,
    paymentMethod: PaymentMethod,
    amountTendered: Option<real>,
    change: Option<real>,
    date: int,
    currency: Currency,
    taxRate: real,
    isFbrInvoice: bool,
    fbrInvoiceNumber: Option<string>)

  // Id accessors, passed to the generic table operations.
  function ProductId(p: Product): int { p.id }
  function CartItemId(item: CartItem): int { item.id }
  function CustomerId(c: Customer): int { c.id }
  function UserId(u: User): int { u.id }
  function HeldOrderId(h: HeldOrder): int { h.id }
}
