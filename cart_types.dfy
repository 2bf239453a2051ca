/** A value that may be absent (JavaScript's `undefined`/`null`). */
module Common {
  datatype Option<+T> = None | Some(value: T)
}

/** The shop's shared record types: cart lines, customers, addresses and orders. */
module CartTypes {
  import opened Common

  /** What a cart line sells. */
  datatype CartItemType = Product | Bundle | Subscription

  /** A line of the client-side cart. `price` is the price the browser shows; it is
      for display only. Money is in minor units (bani). */
  datatype CartItem = CartItem(
    id: string,
    kind: CartItemType,
    name: string,
    price: int,
    quantity: int,
    image: Option<string>)

  /** The cart store's state. `lastUpdated` is a timestamp in milliseconds. */
  datatype CartState = CartState(items: seq<CartItem>, lastUpdated: int)

  /** A cart line after the server looked up its price. */
  datatype ValidatedCartItem = ValidatedCartItem(
    item: CartItem,
    validatedPrice: int,
    isValid: bool,
    error: Option<string>)

  datatype CustomerType = Person | Company

  datatype Address = Address(
    street: string,
    city: string,
    county: string,
    postalCode: string,
    country: string)

  /** A buyer: a private person or a company (`cui` is the Romanian tax id). */
  datatype Customer =
    | PersonCustomer(
        email: string,
        phone: string,
        firstName: string,
        lastName: string,
        deliveryAddress: Address,
        billingAddress: Address,
        sameAddress: bool)
    | CompanyCustomer(
        email: string,
        phone: string,
        companyName: string,
        cui: string,
        contactPerson: string,
        deliveryAddress: Address,
        billingAddress: Address,
        sameAddress: bool)
  {
    function Type(): CustomerType {
      if PersonCustomer? then Person else Company
    }
  }

  /** The status an order can be in. */
  datatype OrderStatus = Pending | Paid | Failed | Cancelled

  /** An order line priced by the server. */
  datatype OrderItem = OrderItem(
    id: string,
    kind: CartItemType,
    name: string,
    price: int,
    quantity: int)

  datatype Order = Order(
    orderId: string,
    status: OrderStatus,
    customer: Customer,
    items: seq<OrderItem>,
    total: int,
    netopiaId: Option<string>,
    createdAt: string)
}
