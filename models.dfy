/** The shop's records (products, customers, orders) and what happens to
    them: the checks an explicit full validation runs, the narrower
    constraints the database enforces on every insert, the cascades on
    delete, and the two computations an order offers (its total price and
    whether it can be fulfilled). Ids are given keys; the store is three
    tables, one map per record type, with an order's product link held as
    a set of product ids. */
module Models {
  import opened Decimals

  type ProductId = nat
  type CustomerId = nat
  type OrderId = nat

  datatype Option<T> = None | Some(value: T)

  datatype Result<T, E> = Ok(value: T) | Err(error: E)

  /** A product as constructed; None stands for a field set to Python's None. */
  datatype Product = Product(name: string, price: Option<Decimal>, available: Option<bool>)

  datatype Customer = Customer(name: string, address: string)

  /** An order; `products` is its many-to-many link to products. */
  datatype Order = Order(customer: Option<CustomerId>, products: set<ProductId>, status: Option<string>)

  const ProductNameMaxLength := 255
  const PriceMaxDigits := 10
  const PriceDecimalPlaces := 2
  const CustomerNameMaxLength := 100
  const StatusChoices: seq<string> := ["New", "In Process", "Sent", "Completed"]

  /** The minimum a price must reach, 1/100. */
  const MinPrice: real := 0.01

  /** The limit the minimum-value check is given in the source: the literal
      0.01 written as a binary double, which is exactly
      5764607523034235 / 2^59, a little above 1/100. */
  const FloatOneCent: real := 5764607523034235.0 / 576460752303423488.0

  /** Prices stay below 10^(10 - 2): eight digits before the point. */
  const MaxPrice: real := Pow10(PriceMaxDigits - PriceDecimalPlaces) as real

  // ---------------------------------------------------------------------
  // Validation errors

  /** The field an error is reported on; NonField is a record-level error. */
  datatype Field = Name | Price | Available | Address | CustomerRef | ProductLinks | Status | NonField

  /** The codes Django reports: Invalid is a value the field cannot take
      (None for a non-nullable boolean, an id no stored row has). */
  datatype Code =
    | Blank | Null | Invalid | MaxLength
    | MaxDigits | MaxDecimalPlaces | MaxWholeDigits | MinValue | NotPositive
    | InvalidChoice

  datatype FieldError = FieldError(field: Field, code: Code)

  /** The codes reported on one field. */
  function ErrorsOn(errors: set<FieldError>, f: Field): set<Code>
  {
    set e | e in errors && e.field == f :: e.code
  }

  /** No error is reported on a field exactly when every error names another. */
  lemma ErrorsOnEmpty(errors: set<FieldError>, f: Field)
    ensures ErrorsOn(errors, f) == {} <==> forall e :: e in errors ==> e.field != f
  {
    if e :| e in errors && e.field == f {
      assert e.code in ErrorsOn(errors, f);
    }
  }

  /** A required character field with a maximum length. */
  function CharFieldErrors(f: Field, s: string, maxLength: nat): set<FieldError>
  {
    if s == "" then {FieldError(f, Blank)}
    else if |s| > maxLength then {FieldError(f, MaxLength)}
    else {}
  }

  /** The digit limits of a 10-digit, 2-place decimal column; the first
      limit broken is the one reported. */
  function DecimalErrors(d: Decimal): set<FieldError>
  {
    if Digits(d) > PriceMaxDigits then {FieldError(Price, MaxDigits)}
    else if d.scale > PriceDecimalPlaces then {FieldError(Price, MaxDecimalPlaces)}
    else if WholeDigits(d) > PriceMaxDigits - PriceDecimalPlaces then {FieldError(Price, MaxWholeDigits)}
    else {}
  }

  /** The digit limits pass exactly when the price has at most two digits
      after the point and lies strictly between -10^8 and 10^8: extra
      decimals are rejected, never rounded away. */
  lemma DecimalErrorsIff(d: Decimal)
    ensures DecimalErrors(d) == {} <==> d.scale <= PriceDecimalPlaces && -MaxPrice < Value(d) < MaxPrice
  {
    var n := Abs(d.unscaled);
    NumDigitsBound(n, 8 + d.scale);
    ValueBound(d, 8);
  }

  function MinValueErrors(d: Decimal, limit: real): set<FieldError>
  {
    if Value(d) < limit then {FieldError(Price, MinValue)} else {}
  }

  /** The price's field-level checks: required, then the digit limits and
      the minimum value, each reported. */
  function PriceErrors(price: Option<Decimal>, limit: real): set<FieldError>
  {
    match price
    case None => {FieldError(Price, Null)}
    case Some(d) => DecimalErrors(d) + MinValueErrors(d, limit)
  }

  /** The record-level check the product adds: the price must be positive.
      It runs after the field checks, even when they failed; with no price
      it reports nothing (the field check already reports the missing
      value). */
  function CleanProduct(p: Product): set<FieldError>
  {
    if p.price.Some? && Value(p.price.value) <= 0.0 then {FieldError(NonField, NotPositive)} else {}
  }

  function FullCleanProduct(p: Product, limit: real): set<FieldError>
  {
    CharFieldErrors(Name, p.name, ProductNameMaxLength)
    + PriceErrors(p.price, limit)
    + (if p.available.None? then {FieldError(Available, Invalid)} else {})
    + CleanProduct(p)
  }

  /** A price that a 10-digit, 2-place column holds exactly and that is at
      least one cent. */
  predicate PriceFits(d: Decimal)
  {
    d.scale <= PriceDecimalPlaces && MinPrice <= Value(d) < MaxPrice
  }

  /** What a valid product is, stated field by field. */
  predicate ProductValid(p: Product)
  {
    && 0 < |p.name| <= ProductNameMaxLength
    && p.price.Some? && PriceFits(p.price.value)
    && p.available.Some?
  }

  /** On every price with at most two decimals the minimum-value check and
      the positivity check give the same answer: 0.01 is the smallest such
      price, and the positivity check never rejects what the field checks
      let through. */
  lemma MinValueAgreesWithClean(d: Decimal)
    requires d.scale <= PriceDecimalPlaces
    ensures Value(d) >= MinPrice <==> Value(d) > 0.0
  {
    var u := d.unscaled as real;
    if d.scale == 0 {
      assert Value(d) == u;
    } else if d.scale == 1 {
      assert Pow10(1) == 10;
      assert Value(d) == u / 10.0;
    } else {
      assert Pow10(2) == 100;
      assert Value(d) == u / 100.0;
    }
  }

  lemma PriceFacts(price: Option<Decimal>)
    ensures price.Some? ==> (DecimalErrors(price.value) == {} <==>
      price.value.scale <= PriceDecimalPlaces && -MaxPrice < Value(price.value) < MaxPrice)
    ensures price.Some? && price.value.scale <= PriceDecimalPlaces ==>
      (Value(price.value) >= MinPrice <==> Value(price.value) > 0.0)
  {
    if price.Some? {
      DecimalErrorsIff(price.value);
      if price.value.scale <= PriceDecimalPlaces {
        MinValueAgreesWithClean(price.value);
      }
    }
  }

  /** How the product's error set splits by field, for any minimum. */
  lemma ProductErrorsByField(p: Product, limit: real)
    ensures ErrorsOn(FullCleanProduct(p, limit), Name) == {} <==> 0 < |p.name| <= ProductNameMaxLength
    ensures ErrorsOn(FullCleanProduct(p, limit), Price) == {} <==> PriceErrors(p.price, limit) == {}
    ensures ErrorsOn(FullCleanProduct(p, limit), Available) == {} <==> p.available.Some?
    ensures ErrorsOn(FullCleanProduct(p, limit), NonField) == {} <==> CleanProduct(p) == {}
    ensures forall e :: e in FullCleanProduct(p, limit) ==> e.field in {Name, Price, Available, NonField}
    ensures FullCleanProduct(p, limit) == {} <==>
      && CharFieldErrors(Name, p.name, ProductNameMaxLength) == {}
      && PriceErrors(p.price, limit) == {} && p.available.Some? && CleanProduct(p) == {}
  {
    var n := CharFieldErrors(Name, p.name, ProductNameMaxLength);
    var pr := PriceErrors(p.price, limit);
    var a: set<FieldError> := if p.available.None? then {FieldError(Available, Invalid)} else {};
    var c := CleanProduct(p);
    var r := FullCleanProduct(p, limit);
    assert r == n + pr + a + c;
    assert forall e :: e in n ==> e.field == Name;
    assert forall e :: e in pr ==> e.field == Price;
    assert forall e :: e in a ==> e.field == Available;
    assert forall e :: e in c ==> e.field == NonField;
    ErrorsOnEmpty(r, Name);
    ErrorsOnEmpty(r, Price);
    ErrorsOnEmpty(r, Available);
    ErrorsOnEmpty(r, NonField);
  }

  /** The intended full validation of a product, with an exact 1/100
      minimum price; full_clean() as written is ValidateProductAsWritten,
      which uses the binary double 0.01 instead. The error set is empty
      exactly when the product is valid, and each field's errors appear
      exactly when that field breaks its own constraint. */
  function ValidateProduct(p: Product): (r: set<FieldError>)
    ensures ErrorsOn(r, Name) == {} <==> 0 < |p.name| <= ProductNameMaxLength
    ensures ErrorsOn(r, Price) == {} <==> p.price.Some? && PriceFits(p.price.value)
    ensures ErrorsOn(r, Available) == {} <==> p.available.Some?
    ensures ErrorsOn(r, NonField) == {} <==> (p.price.Some? ==> Value(p.price.value) > 0.0)
    ensures forall e :: e in r ==> e.field in {Name, Price, Available, NonField}
    ensures r == {} <==> ProductValid(p)
  {
    ProductErrorsByField(p, MinPrice);
    PriceFacts(p.price);
    FullCleanProduct(p, MinPrice)
  }

  /** Full validation exactly as the source declares it, with the binary
      0.01 as the minimum. It accepts exactly the valid products priced at
      or above that double: stricter than the intended check, and different
      from it only on prices between 1/100 and that double. */
  function ValidateProductAsWritten(p: Product): (r: set<FieldError>)
    ensures r == {} <==> ProductValid(p) && Value(p.price.value) >= FloatOneCent
  {
    ProductErrorsByField(p, FloatOneCent);
    PriceFacts(p.price);
    FullCleanProduct(p, FloatOneCent)
  }

  /** As written, a price of exactly 0.01 fails validation, although it
      passes the intended check and the positivity check. */
  lemma AsWrittenRejectsOneCent()
    ensures var p := Product("Min price product", Some(Decimal(1, 2)), Some(true));
      ValidateProductAsWritten(p) == {FieldError(Price, MinValue)} && ValidateProduct(p) == {}
  {
    var p := Product("Min price product", Some(Decimal(1, 2)), Some(true));
    assert Pow10(2) == 100;
    assert Value(Decimal(1, 2)) == 0.01;
    assert Digits(Decimal(1, 2)) == 2;
    assert FullCleanProduct(p, FloatOneCent) == {FieldError(Price, MinValue)};
  }

  /** As written, the smallest two-decimal price that validates is 0.02. */
  lemma AsWrittenSmallestPrice(d: Decimal)
    requires d.scale <= PriceDecimalPlaces
    ensures Value(d) >= FloatOneCent <==> Value(d) >= 0.02
  {
    var u := d.unscaled as real;
    if d.scale == 0 {
      assert Value(d) == u;
    } else if d.scale == 1 {
      assert Pow10(1) == 10;
      assert Value(d) == u / 10.0;
    } else {
      assert Pow10(2) == 100;
      assert Value(d) == u / 100.0;
    }
  }

  /** As written, a product validates exactly when it is valid and its
      price is at least 0.02: 0.01 is never accepted. */
  lemma AsWrittenAcceptedPrices(p: Product)
    ensures ValidateProductAsWritten(p) == {} <==> ProductValid(p) && Value(p.price.value) >= 0.02
  {
    if p.price.Some? && p.price.value.scale <= PriceDecimalPlaces {
      AsWrittenSmallestPrice(p.price.value);
    }
  }

  /** Names: 255 characters are accepted, 256 and the empty name are not. */
  lemma ProductNameExamples()
    ensures ValidateProduct(Product(seq(255, _ => 'x'), Some(Decimal(1000, 2)), Some(true))) == {}
    ensures ValidateProduct(Product(seq(256, _ => 'x'), Some(Decimal(199, 2)), Some(true))) == {FieldError(Name, MaxLength)}
    ensures ValidateProduct(Product("", Some(Decimal(199, 2)), Some(true))) == {FieldError(Name, Blank)}
  {
    assert Pow10(2) == 100;
    assert Digits(Decimal(1000, 2)) == 4;
    assert Digits(Decimal(199, 2)) == 3;
  }

  /** A product whose only fault is a third decimal is rejected with
      exactly that error: the price is not rounded to fit. */
  lemma ExtraDecimalsRejected(name: string, d: Decimal)
    requires 0 < |name| <= ProductNameMaxLength
    requires d.scale > PriceDecimalPlaces && Digits(d) <= PriceMaxDigits && Value(d) >= MinPrice
    ensures ValidateProduct(Product(name, Some(d), Some(true))) == {FieldError(Price, MaxDecimalPlaces)}
  {
    assert Value(d) > 0.0;
  }

  /** Prices: 1.99, 0.01 and 99999.99 are accepted; 1.999 and 1.12345 are
      rejected for their decimals. */
  lemma ProductPriceExamples()
    ensures ValidateProduct(Product("Temporary product", Some(Decimal(199, 2)), Some(true))) == {}
    ensures ValidateProduct(Product("Min price product", Some(Decimal(1, 2)), Some(true))) == {}
    ensures ValidateProduct(Product("Max price product", Some(Decimal(9999999, 2)), Some(true))) == {}
    ensures ValidateProduct(Product("Invalid price format", Some(Decimal(1999, 3)), Some(true)))
         == {FieldError(Price, MaxDecimalPlaces)}
    ensures ValidateProduct(Product("Too many decimals", Some(Decimal(112345, 5)), Some(true)))
         == {FieldError(Price, MaxDecimalPlaces)}
  {
    assert Pow10(2) == 100 && Pow10(8) == 100000000;
    assert ValidateProduct(Product("Temporary product", Some(Decimal(199, 2)), Some(true))) == {};
    assert ValidateProduct(Product("Min price product", Some(Decimal(1, 2)), Some(true))) == {};
    assert ValidateProduct(Product("Max price product", Some(Decimal(9999999, 2)), Some(true))) == {};
    assert ValidateProduct(Product("Invalid price format", Some(Decimal(1999, 3)), Some(true)))
        == {FieldError(Price, MaxDecimalPlaces)} by {
      assert Pow10(3) == 1000 && Digits(Decimal(1999, 3)) == 4;
      ExtraDecimalsRejected("Invalid price format", Decimal(1999, 3));
    }
    assert Pow10(5) == 100000 && Digits(Decimal(112345, 5)) == 6;
    ExtraDecimalsRejected("Too many decimals", Decimal(112345, 5));
  }

  /** The largest price is 99999999.99; 100000000.00 has eleven digits, one
      more than the column holds. */
  lemma ProductPriceLimitExamples()
    ensures ValidateProduct(Product("Largest price", Some(Decimal(9999999999, 2)), Some(true))) == {}
    ensures ValidateProduct(Product("Too expensive", Some(Decimal(10000000000, 2)), Some(true)))
         == {FieldError(Price, MaxDigits)}
  {
    assert Pow10(2) == 100;
    assert Pow10(8) == 100000000;
    assert Digits(Decimal(10000000000, 2)) == 11;
  }

  /** A negative price breaks both the minimum and the positivity check; a
      missing price is the price field's null error, and a missing availability
      the boolean field's invalid-value error. */
  lemma ProductMissingOrNegativeExamples()
    ensures ValidateProduct(Product("Invalid product", Some(Decimal(-199, 2)), Some(true)))
         == {FieldError(Price, MinValue), FieldError(NonField, NotPositive)}
    ensures ValidateProduct(Product("No price product", None, Some(true))) == {FieldError(Price, Null)}
    ensures ValidateProduct(Product("No availability", Some(Decimal(199, 2)), None)) == {FieldError(Available, Invalid)}
  {
    assert Pow10(2) == 100;
    assert Digits(Decimal(-199, 2)) == 3;
    assert Digits(Decimal(199, 2)) == 3;
  }

  // Customers

  /** Explicit full validation of a customer. */
  function ValidateCustomer(c: Customer): (r: set<FieldError>)
    ensures ErrorsOn(r, Name) == {} <==> 0 < |c.name| <= CustomerNameMaxLength
    ensures ErrorsOn(r, Address) == {} <==> c.address != ""
    ensures forall e :: e in r ==> e.field in {Name, Address}
    ensures r == {} <==> 0 < |c.name| <= CustomerNameMaxLength && c.address != ""
  {
    var r := CharFieldErrors(Name, c.name, CustomerNameMaxLength)
      + (if c.address == "" then {FieldError(Address, Blank)} else {});
    ErrorsOnEmpty(r, Name);
    ErrorsOnEmpty(r, Address);
    r
  }

  lemma CustomerValidationExamples()
    ensures ValidateCustomer(Customer("John Doe", "123 Main Street")) == {}
    ensures ValidateCustomer(Customer("", "123 Main Street")) == {FieldError(Name, Blank)}
    ensures ValidateCustomer(Customer("John Doe", "")) == {FieldError(Address, Blank)}
    ensures ValidateCustomer(Customer(seq(101, _ => 'x'), "123 Main Street")) == {FieldError(Name, MaxLength)}
    ensures ValidateCustomer(Customer(seq(100, _ => 'x'), "123 Main Street")) == {}
  {
  }

  // Orders

  function StatusErrors(status: Option<string>): set<FieldError>
  {
    match status
    case None => {FieldError(Status, Null)}
    case Some(s) =>
      if s == "" then {FieldError(Status, Blank)}
      else if s !in StatusChoices then {FieldError(Status, InvalidChoice)}
      else {}
  }

  function CustomerRefErrors(customer: Option<CustomerId>, customers: set<CustomerId>): set<FieldError>
  {
    match customer
    case None => {FieldError(CustomerRef, Null)}
    case Some(c) => if c !in customers then {FieldError(CustomerRef, Invalid)} else {}
  }

  /** Explicit full validation of an order against the ids of the stored
      customers. The product link is not part of it. */
  function ValidateOrder(o: Order, customers: set<CustomerId>): (r: set<FieldError>)
    ensures ErrorsOn(r, Status) == {} <==> o.status.Some? && o.status.value in StatusChoices
    ensures ErrorsOn(r, CustomerRef) == {} <==> o.customer.Some? && o.customer.value in customers
    ensures forall e :: e in r ==> e.field in {CustomerRef, Status}
    ensures r == {} <==> o.customer.Some? && o.customer.value in customers
                         && o.status.Some? && o.status.value in StatusChoices
  {
    var r := CustomerRefErrors(o.customer, customers) + StatusErrors(o.status);
    ErrorsOnEmpty(r, Status);
    ErrorsOnEmpty(r, CustomerRef);
    r
  }

  lemma OrderValidationExamples()
    ensures ValidateOrder(Order(Some(1), {}, Some("New")), {1}) == {}
    ensures ValidateOrder(Order(Some(1), {}, None), {1}) == {FieldError(Status, Null)}
    ensures ValidateOrder(Order(Some(1), {}, Some("InvalidStatus")), {1}) == {FieldError(Status, InvalidChoice)}
  {
  }

  // ---------------------------------------------------------------------
  // Storage

  datatype Store = Store(
    products: map<ProductId, Product>,
    customers: map<CustomerId, Customer>,
    orders: map<OrderId, Order>)

  /** Database-level failures, raised on insert whether or not the record
      was validated. */
  datatype IntegrityError = NotNull(field: Field) | ForeignKey(field: Field) | DuplicateKey

  /** The NOT NULL columns of a product row. */
  predicate ProductRow(p: Product)
  {
    p.price.Some? && p.available.Some?
  }

  /** The NOT NULL and foreign-key constraints of an order row and its links. */
  predicate OrderRow(s: Store, o: Order)
  {
    && o.customer.Some? && o.customer.value in s.customers
    && o.status.Some?
    && o.products <= s.products.Keys
  }

  /** What the database guarantees about every row it holds. */
  predicate Consistent(s: Store)
  {
    && (forall id :: id in s.products ==> ProductRow(s.products[id]))
    && (forall id :: id in s.orders ==> OrderRow(s, s.orders[id]))
  }

  /** Saving a product: only the NOT NULL columns and the key are checked. */
  function InsertProduct(s: Store, id: ProductId, p: Product): (r: Result<Store, IntegrityError>)
    ensures r.Ok? <==> ProductRow(p) && id !in s.products
    ensures r.Ok? ==> r.value == s.(products := s.products[id := p])
    ensures Consistent(s) && r.Ok? ==> Consistent(r.value)
  {
    if p.price.None? then Err(NotNull(Price))
    else if p.available.None? then Err(NotNull(Available))
    else if id in s.products then Err(DuplicateKey)
    else Ok(s.(products := s.products[id := p]))
  }

  /** Saving a customer: only the key is checked. */
  function InsertCustomer(s: Store, id: CustomerId, c: Customer): (r: Result<Store, IntegrityError>)
    ensures r.Ok? <==> id !in s.customers
    ensures r.Ok? ==> r.value == s.(customers := s.customers[id := c])
    ensures Consistent(s) && r.Ok? ==> Consistent(r.value)
  {
    if id in s.customers then Err(DuplicateKey)
    else Ok(s.(customers := s.customers[id := c]))
  }

  /** Creating an order (with no products linked yet). A missing customer
      fails here, at storage level, whatever the status. */
  function InsertOrder(s: Store, id: OrderId, customer: Option<CustomerId>, status: Option<string>)
    : (r: Result<Store, IntegrityError>)
    ensures customer.None? ==> r == Err(NotNull(CustomerRef))
    ensures r.Ok? <==> customer.Some? && customer.value in s.customers && status.Some? && id !in s.orders
    ensures r.Ok? ==> r.value == s.(orders := s.orders[id := Order(customer, {}, status)])
    ensures Consistent(s) && r.Ok? ==> Consistent(r.value)
  {
    if customer.None? then Err(NotNull(CustomerRef))
    else if status.None? then Err(NotNull(Status))
    else if id in s.orders then Err(DuplicateKey)
    else if customer.value !in s.customers then Err(ForeignKey(CustomerRef))
    else Ok(s.(orders := s.orders[id := Order(customer, {}, status)]))
  }

  /** Storage runs none of the validation checks: records that fail full
      validation are still saved. */
  lemma InsertSkipsValidation()
    ensures var s := Store(map[], map[1 := Customer("", "")], map[]);
      && InsertProduct(s, 1, Product("", Some(Decimal(-199, 2)), Some(true))).Ok?
      && ValidateProduct(Product("", Some(Decimal(-199, 2)), Some(true))) != {}
      && InsertCustomer(s, 2, Customer("", "")).Ok?
      && ValidateCustomer(Customer("", "")) != {}
      && InsertOrder(s, 1, Some(1), Some("InvalidStatus")).Ok?
      && ValidateOrder(Order(Some(1), {}, Some("InvalidStatus")), s.customers.Keys) != {}
  {
    assert FieldError(Name, Blank) in ValidateProduct(Product("", Some(Decimal(-199, 2)), Some(true)));
  }

  /** Linking products to a stored order; linking one twice keeps one link. */
  function LinkProducts(s: Store, id: OrderId, ids: set<ProductId>): (r: Result<Store, IntegrityError>)
    ensures r.Ok? <==> id in s.orders && ids <= s.products.Keys
    ensures r.Ok? ==> r.value.products == s.products && r.value.customers == s.customers
    ensures r.Ok? ==> r.value.orders == s.orders[id := s.orders[id].(products := s.orders[id].products + ids)]
    ensures Consistent(s) && r.Ok? ==> Consistent(r.value)
  {
    if id !in s.orders || !(ids <= s.products.Keys) then Err(ForeignKey(ProductLinks))
    else Ok(s.(orders := s.orders[id := s.orders[id].(products := s.orders[id].products + ids)]))
  }

  lemma {:induction false} LinkProductsIdempotent(s: Store, id: OrderId, ids: set<ProductId>)
    requires LinkProducts(s, id, ids).Ok?
    ensures LinkProducts(LinkProducts(s, id, ids).value, id, ids) == LinkProducts(s, id, ids)
  {
    var t := LinkProducts(s, id, ids).value;
    assert t.orders[id].products + ids == t.orders[id].products;
    assert t.orders[id := t.orders[id].(products := t.orders[id].products + ids)] == t.orders;
  }

  /** Deleting a customer deletes every order that refers to it and nothing
      else. */
  function DeleteCustomer(s: Store, c: CustomerId): (r: Store)
    ensures r.customers == s.customers - {c}
    ensures r.products == s.products
    ensures forall id :: id in r.orders <==> id in s.orders && s.orders[id].customer != Some(c)
    ensures forall id :: id in r.orders ==> r.orders[id] == s.orders[id]
    ensures Consistent(s) ==> Consistent(r)
  {
    Store(
      s.products,
      s.customers - {c},
      map id | id in s.orders && s.orders[id].customer != Some(c) :: s.orders[id])
  }

  /** Deleting a product removes it from every order's link; the orders
      themselves stay. */
  function DeleteProduct(s: Store, p: ProductId): (r: Store)
    ensures r.products == s.products - {p}
    ensures r.customers == s.customers
    ensures r.orders.Keys == s.orders.Keys
    ensures forall id :: id in r.orders ==> r.orders[id] == s.orders[id].(products := s.orders[id].products - {p})
    ensures Consistent(s) ==> Consistent(r)
  {
    Store(
      s.products - {p},
      s.customers,
      map id | id in s.orders :: s.orders[id].(products := s.orders[id].products - {p}))
  }

  /** Two customers, one product and three orders: deleting the first
      customer takes its two orders with it. */
  lemma CascadeExample()
    ensures var s := Store(
              map[1 := Product("Product 1", Some(Decimal(1000, 2)), Some(true))],
              map[1 := Customer("Nikola", "456 Street Street"), 2 := Customer("John Doe", "123 Main Street")],
              map[1 := Order(Some(1), {1}, Some("New")), 2 := Order(Some(2), {}, Some("Sent")), 3 := Order(Some(1), {}, Some("Completed"))]);
      DeleteCustomer(s, 1) == Store(s.products, map[2 := Customer("John Doe", "123 Main Street")], map[2 := Order(Some(2), {}, Some("Sent"))])
  {
  }

  // ---------------------------------------------------------------------
  // Order aggregates

  /** Every linked product is stored with its NOT NULL columns set, as the
      database guarantees. */
  predicate Stocked(products: map<ProductId, Product>, links: set<ProductId>)
  {
    forall id :: id in links ==> id in products && ProductRow(products[id])
  }

  lemma ConsistentOrderStocked(s: Store, id: OrderId)
    requires Consistent(s) && id in s.orders
    ensures Stocked(s.products, s.orders[id].products)
  {
  }

  /** The next linked product a query returns; which one is left open. */
  ghost function Pick(links: set<ProductId>): (id: ProductId)
    requires links != {}
    ensures id in links
  {
    var id :| id in links; id
  }

  /** An order's total price: the exact sum of its linked products' prices,
      starting from 0. */
  ghost function CalculateTotalPrice(products: map<ProductId, Product>, links: set<ProductId>): (r: Decimal)
    requires Stocked(products, links)
    ensures links == {} ==> r == Zero
    ensures (forall id :: id in links ==> products[id].price.value.scale <= PriceDecimalPlaces)
            ==> r.scale <= PriceDecimalPlaces
    ensures (forall id :: id in links ==> Value(products[id].price.value) >= 0.0) ==> Value(r) >= 0.0
    decreases links
  {
    if links == {} then Zero
    else
      var id := Pick(links);
      Add(products[id].price.value, CalculateTotalPrice(products, links - {id}))
  }

  /** The total does not depend on the order the products are visited in:
      any linked product can be taken out first. */
  lemma {:induction false} TotalPriceRemove(products: map<ProductId, Product>, links: set<ProductId>, y: ProductId)
    requires Stocked(products, links) && y in links
    ensures CalculateTotalPrice(products, links)
         == Add(products[y].price.value, CalculateTotalPrice(products, links - {y}))
    decreases links
  {
    var x := Pick(links);
    if x != y {
      var rest := links - {x} - {y};
      assert links - {y} - {x} == rest;
      TotalPriceRemove(products, links - {x}, y);
      TotalPriceRemove(products, links - {y}, x);
      AddExchange(products[x].price.value, products[y].price.value, CalculateTotalPrice(products, rest));
    }
  }

  /** The total of two disjoint sets of products is the sum of their totals. */
  lemma {:induction false} TotalPriceUnion(products: map<ProductId, Product>, a: set<ProductId>, b: set<ProductId>)
    requires Stocked(products, a) && Stocked(products, b) && a !! b
    ensures Value(CalculateTotalPrice(products, a + b))
         == Value(CalculateTotalPrice(products, a)) + Value(CalculateTotalPrice(products, b))
    decreases a
  {
    if a == {} {
      assert a + b == b;
    } else {
      var x := Pick(a);
      assert (a + b) - {x} == (a - {x}) + b;
      TotalPriceRemove(products, a + b, x);
      TotalPriceUnion(products, a - {x}, b);
    }
  }

  /** Whether every linked product is available, visiting each once and
      stopping at the first that is not. */
  ghost function CanFulfill(products: map<ProductId, Product>, links: set<ProductId>): bool
    requires Stocked(products, links)
    decreases links
  {
    if links == {} then true
    else
      var id := Pick(links);
      products[id].available.value && CanFulfill(products, links - {id})
  }

  /** An order can be fulfilled exactly when none of its linked products is
      unavailable; with no products it can. */
  lemma {:induction false} CanFulfillIff(products: map<ProductId, Product>, links: set<ProductId>)
    requires Stocked(products, links)
    ensures CanFulfill(products, links) <==> forall id :: id in links ==> products[id].available == Some(true)
    decreases links
  {
    if links != {} {
      var x := Pick(links);
      CanFulfillIff(products, links - {x});
    }
  }

  /** The products of the order tests: 10.00 and 20.00 available, 15.00 not. */
  function SampleProducts(): map<ProductId, Product>
  {
    map[1 := Product("Product 1", Some(Decimal(1000, 2)), Some(true)),
        2 := Product("Product 2", Some(Decimal(2000, 2)), Some(true)),
        3 := Product("Product 3", Some(Decimal(1500, 2)), Some(false))]
  }

  /** 10.00 + 20.00 is exactly 30.00. */
  lemma TotalPriceExample()
    ensures CalculateTotalPrice(SampleProducts(), {1, 2}) == Decimal(3000, 2)
  {
    var ps := SampleProducts();
    TotalPriceRemove(ps, {1, 2}, 1);
    assert {1, 2} - {1} == {2};
    TotalPriceRemove(ps, {2}, 2);
    assert {2} - {2} == {};
    AddZero(Decimal(2000, 2));
    assert Pow10(0) == 1;
    assert Add(Decimal(1000, 2), Decimal(2000, 2)) == Decimal(3000, 2);
  }

  lemma CanFulfillExamples()
    ensures CanFulfill(SampleProducts(), {1, 2})
    ensures !CanFulfill(SampleProducts(), {1, 3})
    ensures CanFulfill(SampleProducts(), {})
  {
    CanFulfillIff(SampleProducts(), {1, 2});
    CanFulfillIff(SampleProducts(), {1, 3});
  }
}
