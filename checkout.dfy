/** The checkout endpoint: it checks the request, re-prices the submitted cart
    against the catalog's answer, computes the SGR deposit and the total, picks
    the outcome and prepares the order record that goes to the order store. */
module Checkout {
  import opened Common
  import opened CartTypes
  import opened CustomerValidation

  const MissingDataMessage := "Date lipsă sau invalide"
  const InvalidEmailMessage := "Adresă de email invalidă"
  const InvalidPhoneMessage := "Număr de telefon invalid"
  const NoValidItemsMessage := "Nu există produse valide în coș"
  const ServerErrorMessage := "A apărut o eroare la procesarea comenzii"
  const MockPaymentMessage := "Netopia nu este configurat. Folosind flux de plată simulat."
  const SubscriptionUnavailableMessage := "Abonamentul nu este disponibil"

  /** A cart line as the client submits it. The client may send any type string:
      `kind` is None when it is not one of the three known types. `price` is the
      client's price, which the endpoint never reads. */
  datatype SubmittedItem = SubmittedItem(
    id: string,
    kind: Option<CartItemType>,
    name: string,
    price: int,
    quantity: int)

  /** The decoded JSON body: `customer` and `cartItems` as sent; `cartItems` is None
      when it is missing or not an array. */
  datatype RequestBody = RequestBody(
    customer: Option<Customer>,
    cartItems: Option<seq<SubmittedItem>>)

  /** A product (looked up by `_id`) or a bundle (looked up by slug) as the catalog lists it.
      `price` is None when the document has no price (null or missing). */
  datatype CatalogEntry = CatalogEntry(id: string, name: string, price: Option<int>)

  /** The catalog's answer to the cart validation query. A list the answer lacks is
      empty; a missing subscription price is None. */
  datatype Catalog = Catalog(
    products: seq<CatalogEntry>,
    bundles: seq<CatalogEntry>,
    subscriptionPrice: Option<int>)

  /** What the catalog query returned, or that it threw. */
  datatype CatalogFetch = Fetched(catalog: Catalog) | FetchFailed

  /** The parameters of the catalog query: the ids of the product lines and the slugs of the bundle lines. */
  datatype CatalogQuery = CatalogQuery(productIds: seq<string>, bundleSlugs: seq<string>)

  /** A value stored in the customer record. */
  datatype FieldValue = Text(text: string) | Location(address: Address)

  /** The order handed to the order store. */
  datatype OrderRecord = OrderRecord(
    orderId: string,
    status: OrderStatus,
    customerType: CustomerType,
    customer: map<string, FieldValue>,
    items: seq<OrderItem>,
    subtotal: int,
    sgrDeposit: int,
    total: int,
    createdAt: string)

  /** The JSON response of the endpoint. */
  datatype CheckoutResponse =
    | ErrorResponse(status: int, error: string)
    | PaymentStarted(orderId: string, paymentUrl: string, message: Option<string>)

  // ---------------------------------------------------------------------------
  // Catalog lookup and the per-line decision
  // ---------------------------------------------------------------------------

  /** `entries.find(e => e.id === id)` as a position: the first match, or `|entries|` when there is none. */
  function FirstMatch(entries: seq<CatalogEntry>, id: string): (k: nat)
    ensures k <= |entries|
    ensures k < |entries| ==> entries[k].id == id
    ensures forall j :: 0 <= j < k ==> entries[j].id != id
  {
    if entries == [] then 0
    else if entries[0].id == id then 0
    else 1 + FirstMatch(entries[1..], id)
  }

  /** The catalog answers for a line of the given kind and id: it lists a product or
      bundle with the id, or, for a subscription, has a subscription price. */
  predicate Listed(catalog: Catalog, kind: CartItemType, id: string) {
    match kind
    case Product => FirstMatch(catalog.products, id) < |catalog.products|
    case Bundle => FirstMatch(catalog.bundles, id) < |catalog.bundles|
    case Subscription => catalog.subscriptionPrice.Some?
  }

  /** The catalog's price for a line of the given kind and id: None when the catalog
      does not list it, or lists it without a price. */
  function ServerPrice(catalog: Catalog, kind: CartItemType, id: string): Option<int> {
    match kind
    case Product =>
      var k := FirstMatch(catalog.products, id);
      if k < |catalog.products| then catalog.products[k].price else None
    case Bundle =>
      var k := FirstMatch(catalog.bundles, id);
      if k < |catalog.bundles| then catalog.bundles[k].price else None
    case Subscription =>
      catalog.subscriptionPrice
  }

  /** The error reported for a line the catalog cannot price. */
  function NotFoundMessage(kind: CartItemType, name: string): string {
    match kind
    case Product => "Produsul \"" + name + "\" nu a fost găsit"
    case Bundle => "Pachetul \"" + name + "\" nu a fost găsit"
    case Subscription => SubscriptionUnavailableMessage
  }

  /** What the pricing loop does with one submitted line. */
  datatype Resolution = Accepted(line: OrderItem) | Rejected(message: string) | Skipped

  /** A line of an unknown type is skipped; a line the catalog does not list is an
      error; a listed line without a price is skipped without an error. */
  function Resolve(item: SubmittedItem, catalog: Catalog): Resolution {
    match item.kind
    case None => Skipped
    case Some(kind) =>
      if !Listed(catalog, kind, item.id) then Rejected(NotFoundMessage(kind, item.name))
      else
        match ServerPrice(catalog, kind, item.id)
        case Some(price) => Accepted(OrderItem(item.id, kind, item.name, price, item.quantity))
        case None => Skipped
  }

  // ---------------------------------------------------------------------------
  // The cart-level specification of the pricing loop
  // ---------------------------------------------------------------------------

  /** The server-priced lines of a cart, in cart order. */
  function ValidatedItems(cart: seq<SubmittedItem>, catalog: Catalog): seq<OrderItem> {
    if cart == [] then []
    else
      var r := Resolve(cart[|cart| - 1], catalog);
      ValidatedItems(cart[..|cart| - 1], catalog) + (if r.Accepted? then [r.line] else [])
  }

  /** The error messages of a cart, one per line the catalog cannot price, in cart order. */
  function CartErrors(cart: seq<SubmittedItem>, catalog: Catalog): seq<string> {
    if cart == [] then []
    else
      var r := Resolve(cart[|cart| - 1], catalog);
      CartErrors(cart[..|cart| - 1], catalog) + (if r.Rejected? then [r.message] else [])
  }

  /** The sum of price times quantity over the lines. */
  function Subtotal(lines: seq<OrderItem>): int {
    if lines == [] then 0
    else
      var last := lines[|lines| - 1];
      Subtotal(lines[..|lines| - 1]) + last.price * last.quantity
  }

  /** The sum of the quantities of the product lines among priced lines. */
  function ProductUnits(lines: seq<OrderItem>): int {
    if lines == [] then 0
    else
      var last := lines[|lines| - 1];
      ProductUnits(lines[..|lines| - 1]) + (if last.kind == Product then last.quantity else 0)
  }

  /** The bottles the deposit is charged on: the quantities of the product lines the
      catalog lists, counted as soon as the product is found, before its price is read. */
  function CountedBottles(cart: seq<SubmittedItem>, catalog: Catalog): int {
    if cart == [] then 0
    else
      var last := cart[|cart| - 1];
      CountedBottles(cart[..|cart| - 1], catalog)
        + (if last.kind == Some(Product) && Listed(catalog, Product, last.id) then last.quantity else 0)
  }

  /** The deposit is SGR per bottle; the total adds it to the subtotal. */
  function OrderTotal(lines: seq<OrderItem>, bottles: int, sgrDeposit: int): int {
    Subtotal(lines) + bottles * sgrDeposit
  }

  // ---------------------------------------------------------------------------
  // The pricing loop
  // ---------------------------------------------------------------------------

  /** Walks the cart once, never stopping early, and collects the priced lines,
      the subtotal, the bottle count and the error messages. */
  method PriceCart(cart: seq<SubmittedItem>, catalog: Catalog)
    returns (lines: seq<OrderItem>, subtotal: int, bottleCount: int, errors: seq<string>)
    ensures lines == ValidatedItems(cart, catalog)
    ensures errors == CartErrors(cart, catalog)
    ensures subtotal == Subtotal(lines)
    ensures bottleCount == CountedBottles(cart, catalog)
  {
    lines, subtotal, bottleCount, errors := [], 0, 0, [];
    for i := 0 to |cart|
      invariant lines == ValidatedItems(cart[..i], catalog)
      invariant errors == CartErrors(cart[..i], catalog)
      invariant subtotal == Subtotal(lines)
      invariant bottleCount == CountedBottles(cart[..i], catalog)
    {
      var item := cart[i];
      PricingStep(cart, i, catalog);
      ghost var r := Resolve(item, catalog);
      assert lines + (if r.Accepted? then [r.line] else []) == ValidatedItems(cart[..i + 1], catalog);
      assert errors + (if r.Rejected? then [r.message] else []) == CartErrors(cart[..i + 1], catalog);
      var serverPrice: Option<int> := None;
      if item.kind == Some(Product) {
        var k := FirstMatch(catalog.products, item.id);
        if k < |catalog.products| {
          serverPrice := catalog.products[k].price;
          bottleCount := bottleCount + item.quantity;
        } else {
          assert Resolve(item, catalog) == Rejected(NotFoundMessage(Product, item.name));
          errors := errors + [NotFoundMessage(Product, item.name)];
          continue;
        }
      } else if item.kind == Some(Bundle) {
        var k := FirstMatch(catalog.bundles, item.id);
        if k < |catalog.bundles| {
          serverPrice := catalog.bundles[k].price;
        } else {
          assert Resolve(item, catalog) == Rejected(NotFoundMessage(Bundle, item.name));
          errors := errors + [NotFoundMessage(Bundle, item.name)];
          continue;
        }
      } else if item.kind == Some(Subscription) {
        if catalog.subscriptionPrice.Some? {
          serverPrice := catalog.subscriptionPrice;
        } else {
          assert Resolve(item, catalog) == Rejected(SubscriptionUnavailableMessage);
          errors := errors + [SubscriptionUnavailableMessage];
          continue;
        }
      }
      assert item.kind.Some? ==> ServerPrice(catalog, item.kind.value, item.id) == serverPrice;
      if serverPrice.Some? {
        var line := OrderItem(item.id, item.kind.value, item.name, serverPrice.value, item.quantity);
        assert Resolve(item, catalog) == Accepted(line);
        TotalsStep(lines, line);
        lines := lines + [line];
        subtotal := subtotal + line.price * line.quantity;
      } else {
        assert Resolve(item, catalog) == Skipped;
      }
    }
    assert cart[..|cart|] == cart;
  }

  /** One more cart line adds its own result, if any, at the end. */
  lemma PricingStep(cart: seq<SubmittedItem>, i: nat, catalog: Catalog)
    requires i < |cart|
    ensures var r := Resolve(cart[i], catalog);
      && ValidatedItems(cart[..i + 1], catalog) == ValidatedItems(cart[..i], catalog) + (if r.Accepted? then [r.line] else [])
      && CartErrors(cart[..i + 1], catalog) == CartErrors(cart[..i], catalog) + (if r.Rejected? then [r.message] else [])
      && CountedBottles(cart[..i + 1], catalog) == CountedBottles(cart[..i], catalog)
           + (if cart[i].kind == Some(Product) && Listed(catalog, Product, cart[i].id) then cart[i].quantity else 0)
  {
    assert cart[..i + 1][..i] == cart[..i];
  }

  /** One more line adds its amount to the subtotal. */
  lemma TotalsStep(lines: seq<OrderItem>, line: OrderItem)
    ensures Subtotal(lines + [line]) == Subtotal(lines) + line.price * line.quantity
  {
    assert (lines + [line])[..|lines|] == lines;
  }

  // ---------------------------------------------------------------------------
  // Properties of the pricing
  // ---------------------------------------------------------------------------

  /** Pricing keeps cart order: the lines and errors of a concatenated cart are those of its parts, concatenated. */
  lemma {:induction false} PricingSplits(a: seq<SubmittedItem>, b: seq<SubmittedItem>, catalog: Catalog)
    ensures ValidatedItems(a + b, catalog) == ValidatedItems(a, catalog) + ValidatedItems(b, catalog)
    ensures CartErrors(a + b, catalog) == CartErrors(a, catalog) + CartErrors(b, catalog)
    ensures CountedBottles(a + b, catalog) == CountedBottles(a, catalog) + CountedBottles(b, catalog)
  {
    if b == [] {
      assert a + b == a;
    } else {
      var b' := b[..|b| - 1];
      assert (a + b)[..|a + b| - 1] == a + b';
      assert (a + b)[|a + b| - 1] == b[|b| - 1];
      PricingSplits(a, b', catalog);
    }
  }

  /** Every priced line carries the catalog's price for its kind and id, never the client's. */
  lemma {:induction false} LinesPricedByCatalog(cart: seq<SubmittedItem>, catalog: Catalog)
    ensures forall l :: l in ValidatedItems(cart, catalog) ==> ServerPrice(catalog, l.kind, l.id) == Some(l.price)
  {
    if cart != [] {
      LinesPricedByCatalog(cart[..|cart| - 1], catalog);
    }
  }

  /** Two carts that differ only in the client's prices are priced identically. */
  lemma {:induction false} ClientPriceIgnored(cart: seq<SubmittedItem>, other: seq<SubmittedItem>, catalog: Catalog)
    requires |other| == |cart|
    requires forall i :: 0 <= i < |cart| ==> other[i] == cart[i].(price := other[i].price)
    ensures ValidatedItems(other, catalog) == ValidatedItems(cart, catalog)
    ensures CartErrors(other, catalog) == CartErrors(cart, catalog)
  {
    if cart != [] {
      var n := |cart| - 1;
      assert Resolve(other[n], catalog) == Resolve(cart[n], catalog);
      ClientPriceIgnored(cart[..n], other[..n], catalog);
    }
  }

  /** A cart whose every line has a known type and a catalog price is priced line for
      line: same length, same order, id, type, name and quantity copied, the price
      from the catalog, and no errors. */
  lemma {:induction false} FullyPricedCart(cart: seq<SubmittedItem>, catalog: Catalog)
    requires forall i :: 0 <= i < |cart| ==>
      cart[i].kind.Some? && ServerPrice(catalog, cart[i].kind.value, cart[i].id).Some?
    ensures |ValidatedItems(cart, catalog)| == |cart|
    ensures forall i :: 0 <= i < |cart| ==>
      ValidatedItems(cart, catalog)[i] ==
        OrderItem(cart[i].id, cart[i].kind.value, cart[i].name,
                  ServerPrice(catalog, cart[i].kind.value, cart[i].id).value, cart[i].quantity)
    ensures CartErrors(cart, catalog) == []
  {
    if cart != [] {
      FullyPricedCart(cart[..|cart| - 1], catalog);
    }
  }

  /** There are no errors exactly when the catalog lists every line of a known type. */
  lemma {:induction false} NoErrorsIffAllFound(cart: seq<SubmittedItem>, catalog: Catalog)
    ensures CartErrors(cart, catalog) == [] <==>
      forall i :: 0 <= i < |cart| && cart[i].kind.Some? ==> Listed(catalog, cart[i].kind.value, cart[i].id)
  {
    if cart != [] {
      var n := |cart| - 1;
      NoErrorsIffAllFound(cart[..n], catalog);
      assert forall i :: 0 <= i < n ==> cart[..n][i] == cart[i];
    }
  }

  /** Every line of a known type yields exactly one priced line or exactly one error,
      unless the catalog lists it without a price; a line of any other type yields neither. */
  lemma {:induction false} OneResultPerKnownLine(cart: seq<SubmittedItem>, catalog: Catalog)
    ensures |ValidatedItems(cart, catalog)| + |CartErrors(cart, catalog)| + UnpricedLines(cart, catalog)
      == KnownLines(cart)
  {
    if cart != [] {
      OneResultPerKnownLine(cart[..|cart| - 1], catalog);
    }
  }

  /** The number of lines whose type is one of the three known types. */
  function KnownLines(cart: seq<SubmittedItem>): nat {
    if cart == [] then 0
    else KnownLines(cart[..|cart| - 1]) + (if cart[|cart| - 1].kind.Some? then 1 else 0)
  }

  /** The number of lines of a known type that the catalog lists without a price. */
  function UnpricedLines(cart: seq<SubmittedItem>, catalog: Catalog): nat {
    if cart == [] then 0
    else
      var last := cart[|cart| - 1];
      UnpricedLines(cart[..|cart| - 1], catalog)
        + (if last.kind.Some? && Listed(catalog, last.kind.value, last.id)
              && ServerPrice(catalog, last.kind.value, last.id).None? then 1 else 0)
  }

  /** Subtotal and bottle count split over a concatenation of lines. */
  lemma {:induction false} TotalsSplit(a: seq<OrderItem>, b: seq<OrderItem>)
    ensures Subtotal(a + b) == Subtotal(a) + Subtotal(b)
    ensures ProductUnits(a + b) == ProductUnits(a) + ProductUnits(b)
  {
    if b == [] {
      assert a + b == a;
    } else {
      var b' := b[..|b| - 1];
      assert (a + b)[..|a + b| - 1] == a + b';
      TotalsSplit(a, b');
    }
  }

  /** Bundles and subscriptions carry no deposit: a cart without product lines counts no bottles. */
  lemma {:induction false} NoBottlesWithoutProducts(cart: seq<SubmittedItem>, catalog: Catalog)
    requires forall i :: 0 <= i < |cart| ==> cart[i].kind != Some(Product)
    ensures CountedBottles(cart, catalog) == 0
  {
    if cart != [] {
      NoBottlesWithoutProducts(cart[..|cart| - 1], catalog);
    }
  }

  /** When every listed product has a price, the bottles charged are exactly the units
      of the product lines of the order. */
  lemma {:induction false} BottlesOfPricedProducts(cart: seq<SubmittedItem>, catalog: Catalog)
    requires forall i :: 0 <= i < |cart| && cart[i].kind == Some(Product) && Listed(catalog, Product, cart[i].id) ==>
      ServerPrice(catalog, Product, cart[i].id).Some?
    ensures CountedBottles(cart, catalog) == ProductUnits(ValidatedItems(cart, catalog))
  {
    if cart != [] {
      var n := |cart| - 1;
      var item := cart[n];
      assert forall i :: 0 <= i < n ==> cart[..n][i] == cart[i];
      BottlesOfPricedProducts(cart[..n], catalog);
      var r := Resolve(item, catalog);
      var prefix := ValidatedItems(cart[..n], catalog);
      var counted := if item.kind == Some(Product) && Listed(catalog, Product, item.id) then item.quantity else 0;
      assert CountedBottles(cart, catalog) == CountedBottles(cart[..n], catalog) + counted;
      if r.Accepted? {
        assert ValidatedItems(cart, catalog) == prefix + [r.line];
        assert (prefix + [r.line])[..|prefix|] == prefix;
        assert ProductUnits(prefix + [r.line]) == ProductUnits(prefix) + counted;
      } else {
        assert ValidatedItems(cart, catalog) == prefix;
        assert counted == 0;
      }
    }
  }

  /** A product the catalog lists without a price is dropped from the order without an
      error, yet its bottles are still charged: here a cart of two such bottles and a
      priced bundle yields the bundle alone with a deposit on two bottles. */
  lemma UnpricedProductStillCharged()
    ensures var catalog := Catalog([CatalogEntry("p", "Wine", None)], [CatalogEntry("b", "Box", Some(100))], None);
      var cart := [SubmittedItem("p", Some(Product), "Wine", 50, 2), SubmittedItem("b", Some(Bundle), "Box", 100, 1)];
      && ValidatedItems(cart, catalog) == [OrderItem("b", Bundle, "Box", 100, 1)]
      && CartErrors(cart, catalog) == []
      && CountedBottles(cart, catalog) == 2
      && ProductUnits(ValidatedItems(cart, catalog)) == 0
  {
    var catalog := Catalog([CatalogEntry("p", "Wine", None)], [CatalogEntry("b", "Box", Some(100))], None);
    var cart := [SubmittedItem("p", Some(Product), "Wine", 50, 2), SubmittedItem("b", Some(Bundle), "Box", 100, 1)];
    assert cart[..1] == [cart[0]];
    assert [cart[0]][..0] == [];
  }

  // ---------------------------------------------------------------------------
  // The query, the customer record and the response
  // ---------------------------------------------------------------------------

  /** The ids of the lines of one kind, in cart order. */
  function IdsOfKind(cart: seq<SubmittedItem>, kind: CartItemType): (ids: seq<string>)
    ensures |ids| <= |cart|
    ensures forall i :: 0 <= i < |cart| && cart[i].kind == Some(kind) ==> cart[i].id in ids
    ensures forall id :: id in ids ==> exists i :: 0 <= i < |cart| && cart[i].kind == Some(kind) && cart[i].id == id
  {
    if cart == [] then []
    else
      var rest := IdsOfKind(cart[1..], kind);
      assert forall i :: 1 <= i < |cart| ==> cart[i] == cart[1..][i - 1];
      if cart[0].kind == Some(kind) then [cart[0].id] + rest else rest
  }

  /** The billing address the order keeps: the delivery address when the customer ticked "same address". */
  function EffectiveBilling(c: Customer): Address {
    if c.sameAddress then c.deliveryAddress else c.billingAddress
  }

  const CommonKeys: set<string> := {"email", "phone", "deliveryAddress", "billingAddress"}
  const PersonKeys: set<string> := {"firstName", "lastName"}
  const CompanyKeys: set<string> := {"companyName", "cui", "contactPerson"}

  /** The customer record stored with the order. */
  function CustomerRecord(c: Customer): (data: map<string, FieldValue>)
    ensures data.Keys == CommonKeys + (if c.PersonCustomer? then PersonKeys else CompanyKeys)
  {
    var common := map[
      "email" := Text(c.email),
      "phone" := Text(c.phone),
      "deliveryAddress" := Location(c.deliveryAddress),
      "billingAddress" := Location(EffectiveBilling(c))];
    match c
    case PersonCustomer(_, _, firstName, lastName, _, _, _) =>
      common["firstName" := Text(firstName)]["lastName" := Text(lastName)]
    case CompanyCustomer(_, _, companyName, cui, contactPerson, _, _, _) =>
      common["companyName" := Text(companyName)]["cui" := Text(cui)]["contactPerson" := Text(contactPerson)]
  }

  /** Builds the customer record field by field, as the endpoint does. */
  method BuildCustomerData(c: Customer) returns (data: map<string, FieldValue>)
    ensures data == CustomerRecord(c)
  {
    data := map[];
    data := data["email" := Text(c.email)];
    data := data["phone" := Text(c.phone)];
    data := data["deliveryAddress" := Location(c.deliveryAddress)];
    data := data["billingAddress" := Location(if c.sameAddress then c.deliveryAddress else c.billingAddress)];
    if c.PersonCustomer? {
      data := data["firstName" := Text(c.firstName)];
      data := data["lastName" := Text(c.lastName)];
    } else {
      data := data["companyName" := Text(c.companyName)];
      data := data["cui" := Text(c.cui)];
      data := data["contactPerson" := Text(c.contactPerson)];
    }
  }

  /** Reads a customer back from a stored record; the result has "same address" unticked. */
  function CustomerFromRecord(t: CustomerType, data: map<string, FieldValue>): Option<Customer> {
    var keys := CommonKeys + (if t == Person then PersonKeys else CompanyKeys);
    if !(keys <= data.Keys) then None
    else if !(data["deliveryAddress"].Location? && data["billingAddress"].Location?) then None
    else if !(forall k :: k in keys && k !in {"deliveryAddress", "billingAddress"} ==> data[k].Text?) then None
    else if t == Person then
      Some(PersonCustomer(
        data["email"].text, data["phone"].text, data["firstName"].text, data["lastName"].text,
        data["deliveryAddress"].address, data["billingAddress"].address, false))
    else
      Some(CompanyCustomer(
        data["email"].text, data["phone"].text, data["companyName"].text, data["cui"].text,
        data["contactPerson"].text, data["deliveryAddress"].address, data["billingAddress"].address, false))
  }

  /** The stored record loses nothing but the "same address" tick: reading it back gives
      the customer with the billing address it resolved to. */
  lemma CustomerRecordRoundTrip(c: Customer)
    ensures CustomerFromRecord(c.Type(), CustomerRecord(c)) ==
      Some(c.(billingAddress := EffectiveBilling(c), sameAddress := false))
  {
    var data := CustomerRecord(c);
    var keys := CommonKeys + (if c.Type() == Person then PersonKeys else CompanyKeys);
    assert forall k :: k in keys && k !in {"deliveryAddress", "billingAddress"} ==> data[k].Text?;
  }

  /** The record's keys tell a person from a company. */
  lemma CustomerRecordShowsType(c: Customer)
    ensures "firstName" in CustomerRecord(c) <==> c.PersonCustomer?
    ensures "companyName" in CustomerRecord(c) <==> c.CompanyCustomer?
  {
  }

  /** The URL the browser is sent to; without payment-provider credentials it is the marked mock URL. */
  function PaymentUrl(orderId: string, netopiaConfigured: bool): string {
    "/payment/success?orderId=" + orderId + (if netopiaConfigured then "" else "&mock=true")
  }

  /** `parts.join(sep)`. */
  function Join(parts: seq<string>, sep: string): string {
    if parts == [] then ""
    else if |parts| == 1 then parts[0]
    else parts[0] + sep + Join(parts[1..], sep)
  }

  predicate HasRequiredData(body: RequestBody) {
    body.customer.Some? && body.cartItems.Some? && body.cartItems.value != []
  }

  predicate EmailRejected(body: RequestBody) {
    HasRequiredData(body) && !ValidateEmail(body.customer.value.email)
  }

  predicate PhoneRejected(body: RequestBody) {
    HasRequiredData(body) && ValidateEmail(body.customer.value.email) && !ValidatePhone(body.customer.value.phone)
  }

  /** The request passes the structural, e-mail and phone checks, so the catalog is queried. */
  predicate ReachesCatalog(body: RequestBody) {
    && HasRequiredData(body)
    && ValidateEmail(body.customer.value.email)
    && ValidatePhone(body.customer.value.phone)
  }

  // ---------------------------------------------------------------------------
  // The endpoint
  // ---------------------------------------------------------------------------

  /** The checkout endpoint. `body` is None when the request is not JSON or is the
      JSON value `null`, whose destructuring throws; `fetch` is what the catalog query
      returns; `orderId` and `createdAt` stand for the generated id and the clock.
      Returns the response, the catalog query it issued (None if it stopped before)
      and the order it handed to the store (None if it stopped before); a failure of
      the store is ignored, so the response does not depend on it. */
  method Initiate(
    body: Option<RequestBody>, fetch: CatalogFetch, sgrDeposit: int,
    orderId: string, createdAt: string, netopiaConfigured: bool)
    returns (response: CheckoutResponse, query: Option<CatalogQuery>, saved: Option<OrderRecord>)
    // an unreadable body is an internal error
    ensures body.None? ==> response == ErrorResponse(500, ServerErrorMessage) && query.None? && saved.None?
    // the three request checks, in this order, before the catalog is queried
    ensures body.Some? && !HasRequiredData(body.value) ==>
      response == ErrorResponse(400, MissingDataMessage) && query.None? && saved.None?
    ensures body.Some? && EmailRejected(body.value) ==>
      response == ErrorResponse(400, InvalidEmailMessage) && query.None? && saved.None?
    ensures body.Some? && PhoneRejected(body.value) ==>
      response == ErrorResponse(400, InvalidPhoneMessage) && query.None? && saved.None?
    // the query asks for the product ids and bundle slugs of the cart
    ensures body.Some? && ReachesCatalog(body.value) ==>
      query == Some(CatalogQuery(IdsOfKind(body.value.cartItems.value, Product), IdsOfKind(body.value.cartItems.value, Bundle)))
    ensures body.Some? && ReachesCatalog(body.value) && fetch.FetchFailed? ==>
      response == ErrorResponse(500, ServerErrorMessage) && saved.None?
    // the outcome of pricing: the error list, then "no valid items", then success
    ensures body.Some? && ReachesCatalog(body.value) && fetch.Fetched? ==>
      var errors := CartErrors(body.value.cartItems.value, fetch.catalog);
      errors != [] ==> response == ErrorResponse(400, Join(errors, ", ")) && saved.None?
    ensures body.Some? && ReachesCatalog(body.value) && fetch.Fetched? ==>
      var lines := ValidatedItems(body.value.cartItems.value, fetch.catalog);
      var errors := CartErrors(body.value.cartItems.value, fetch.catalog);
      var bottles := CountedBottles(body.value.cartItems.value, fetch.catalog);
      errors == [] && (lines == [] || OrderTotal(lines, bottles, sgrDeposit) <= 0) ==>
        response == ErrorResponse(400, NoValidItemsMessage) && saved.None?
    ensures body.Some? && ReachesCatalog(body.value) && fetch.Fetched? ==>
      var c := body.value.customer.value;
      var lines := ValidatedItems(body.value.cartItems.value, fetch.catalog);
      var errors := CartErrors(body.value.cartItems.value, fetch.catalog);
      var bottles := CountedBottles(body.value.cartItems.value, fetch.catalog);
      errors == [] && lines != [] && OrderTotal(lines, bottles, sgrDeposit) > 0 ==>
        && saved == Some(OrderRecord(orderId, Pending, c.Type(), CustomerRecord(c), lines,
                                     Subtotal(lines), bottles * sgrDeposit,
                                     OrderTotal(lines, bottles, sgrDeposit), createdAt))
        && response == PaymentStarted(orderId, PaymentUrl(orderId, netopiaConfigured),
                                 if netopiaConfigured then None else Some(MockPaymentMessage))
    // what every stored order satisfies
    ensures response.PaymentStarted? <==> saved.Some?
    ensures saved.Some? ==>
      && fetch.Fetched?
      && saved.value.items != []
      && saved.value.total == saved.value.subtotal + saved.value.sgrDeposit
      && saved.value.total > 0
      && forall l :: l in saved.value.items ==> ServerPrice(fetch.catalog, l.kind, l.id) == Some(l.price)
  {
    query, saved := None, None;
    if body.None? {
      response := ErrorResponse(500, ServerErrorMessage);
      return;
    }
    var customer, cartItems := body.value.customer, body.value.cartItems;
    if customer.None? || cartItems.None? || |cartItems.value| == 0 {
      response := ErrorResponse(400, MissingDataMessage);
      return;
    }
    var c, cart := customer.value, cartItems.value;
    if !ValidateEmail(c.email) {
      response := ErrorResponse(400, InvalidEmailMessage);
      return;
    }
    if !ValidatePhone(c.phone) {
      response := ErrorResponse(400, InvalidPhoneMessage);
      return;
    }

    query := Some(CatalogQuery(IdsOfKind(cart, Product), IdsOfKind(cart, Bundle)));
    if fetch.FetchFailed? {
      response := ErrorResponse(500, ServerErrorMessage);
      return;
    }

    var lines, subtotal, bottleCount, errors := PriceCart(cart, fetch.catalog);
    var sgrTotal := bottleCount * sgrDeposit;
    var total := subtotal + sgrTotal;

    if |errors| > 0 {
      response := ErrorResponse(400, Join(errors, ", "));
      return;
    }
    if |lines| == 0 || total <= 0 {
      response := ErrorResponse(400, NoValidItemsMessage);
      return;
    }

    var customerData := BuildCustomerData(c);
    LinesPricedByCatalog(cart, fetch.catalog);
    assert sgrTotal == CountedBottles(cart, fetch.catalog) * sgrDeposit;
    assert total == OrderTotal(lines, bottleCount, sgrDeposit);
    saved := Some(OrderRecord(orderId, Pending, c.Type(), customerData, lines, subtotal, sgrTotal, total, createdAt));

    if !netopiaConfigured {
      response := PaymentStarted(orderId, "/payment/success?orderId=" + orderId + "&mock=true", Some(MockPaymentMessage));
      return;
    }
    assert "/payment/success?orderId=" + orderId + "" == "/payment/success?orderId=" + orderId;
    response := PaymentStarted(orderId, "/payment/success?orderId=" + orderId, None);
  }
}
