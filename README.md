# SEList4 shop backend: records, validation, storage and access policy

This project models the core of a small Django shop backend. It has three
record types: products, customers and orders. The model covers four things.

- **Validation.** The checks that an explicit `full_clean()` runs on each
  record (`Models.ValidateCustomer`, `Models.ValidateOrder`, and for products
  `Models.ValidateProductAsWritten`). Each returns the set of field errors.
  `Models.ValidateProduct` is the intended product check, with an exact 1/100
  minimum price; as written, `full_clean()` compares against the binary
  double 0.01 and rejects a price of 0.01 (see "## Findings"). The corrected
  check's error set, and those of the customer and order checks, are empty
  exactly when the record is valid.
- **Storage.** The narrower constraints the database enforces on every
  insert, whether or not the record was validated (`Models.Insert*`,
  `Models.LinkProducts`). Also the cascades on delete (`Models.DeleteCustomer`,
  `Models.DeleteProduct`). A store is three maps from given ids to records.
  An order's many-to-many product link is a set of product ids.
- **Order aggregates.** The exact total price of an order
  (`Models.CalculateTotalPrice`) and whether it can be fulfilled
  (`Models.CanFulfill`).
- **Access policy.** The permission stack every viewset declares
  (`Views.Decide`). The app's `IsAdminOrReadOnly` (`myapp/permissions.py`,
  not part of this model) is a parameter, an arbitrary function of user and
  method.

Prices are exact decimals (`Decimals.Decimal`): a coefficient plus the number
of digits written after the point. So 1.990 and 1.99 have equal values but
different representations, and since the validator reads the representation
it can reject extra decimals instead of rounding them.

What the code does, as the model states it:

- A price may have at most two decimals, so 1.5 is accepted.
- Every column is NOT NULL, because no field declares `null=True`. Storing a
  product whose price or availability is set to None fails, and so does
  storing an order whose status or customer is set to None. Name lengths and status choices are
  not enforced by storage; only full validation checks them.
- An unauthenticated POST is denied by the permission stack, because
  the stack is checked before validation. The view test at
  `SEList4/myapp/tests/test_views.py:70-73` expects a 400 validation error
  there instead.

Three library behaviours are modelled from what Django documents for these
declarations:

- The decimal validator counts digits and decimals the way Python's
  `Decimal.as_tuple()` shows them. It reports the first limit broken: 10
  digits in all, 2 after the point, 8 before it.
- `full_clean` runs the record-level `clean()` even when a field check has
  already failed.
- The error codes are Django's: `blank`, `null`, `invalid`, `max_length`,
  `max_digits`, `max_decimal_places`, `max_whole_digits`, `min_value` and
  `invalid_choice`. A boolean field given None reports `invalid`, not
  `null`, and so does a foreign key naming no stored row. The positivity
  error of `clean()` has no code in the source; `NotPositive` is the
  model's own label.

## Model

| member | source | states |
|---|---|---|
| `Decimals.Add` | SEList4/myapp/models.py:49-50 | The sum of two prices has the larger of their scales, and its value is exactly the sum of their values (no rounding). |
| `Decimals.AddExchange` | SEList4/myapp/models.py:50 | Adding prices in a different order gives the same decimal, representation included. |
| `Decimals.NumDigitsBound` | SEList4/myapp/models.py:9-10 | A coefficient has at most k digits exactly when it is below 10^k; this links the validator's digit count to value bounds. |
| `Models.DecimalErrorsIff` | SEList4/myapp/models.py:9-10 | The 10-digit, 2-place limits pass exactly when the price has at most two decimals and lies strictly between -10^8 and 10^8. |
| `Models.MinValueAgreesWithClean` | SEList4/myapp/models.py:10-16 | On every price with at most two decimals, "at least 0.01" holds exactly when "greater than 0" does: with the exact 1/100 minimum, the minimum-value validator and `clean` give the same answer. |
| `Models.CleanProduct` | SEList4/myapp/models.py:14-16 | The record-level check reports its error exactly when a price is present and not positive; this is stated by the `NonField` clause of `Models.ValidateProduct`'s contract. |
| `Models.ValidateProduct` | SEList4/myapp/models.py:6-16 | The intended check, with an exact 1/100 minimum (as written, `full_clean()` is `Models.ValidateProductAsWritten`). No errors exactly when 1 <= name length <= 255, the price is present with at most two decimals and 0.01 <= price < 10^8, and availability is present. The name, price, availability and record-level errors each appear exactly when their own constraint is broken. |
| `Models.ValidateProductAsWritten` | SEList4/myapp/models.py:10 | With the float literal as the minimum, a product is accepted exactly when it is valid and its price is at least that float. |
| `Models.AsWrittenAcceptedPrices` | SEList4/myapp/models.py:10 | As written, a product is accepted exactly when it is valid and its price is at least 0.02. |
| `Models.AsWrittenRejectsOneCent` | SEList4/myapp/models.py:10 | As written, a 0.01 product fails with a minimum-value error, although the intended check accepts it. |
| `Models.AsWrittenSmallestPrice` | SEList4/myapp/models.py:10 | As written, a two-decimal price passes the minimum exactly when it is at least 0.02. |
| `Models.ExtraDecimalsRejected` | SEList4/myapp/models.py:9-11 | A product whose only fault is a third decimal gets exactly the decimal-places error: the price is not rounded. |
| `Models.ProductNameExamples` | SEList4/myapp/tests/test_models.py:35-46 | A 255-character name is accepted; 256 characters or the empty name give exactly the length or blank error. |
| `Models.ProductPriceExamples` | SEList4/myapp/tests/test_models.py:48-64 | 1.99, 0.01 and 99999.99 are accepted; 1.999 and 1.12345 give exactly the decimal-places error. |
| `Models.ProductPriceLimitExamples` | SEList4/myapp/models.py:9-11 | 99999999.99 is accepted; 100000000.00 gives exactly the max-digits error. |
| `Models.ProductMissingOrNegativeExamples` | SEList4/myapp/tests/test_models.py:13-32 | -1.99 gives the minimum-value and positivity errors; a missing price gives exactly the price's null error; a missing availability gives exactly the boolean field's invalid error. |
| `Models.ValidateCustomer` | SEList4/myapp/models.py:22-25 | No errors exactly when 1 <= name length <= 100 and the address is non-empty; each field's errors appear exactly when its own constraint is broken. |
| `Models.CustomerValidationExamples` | SEList4/myapp/tests/test_models.py:68-101 | The customer cases of the tests: a valid customer, blank name, blank address, 101 and 100 characters. |
| `Models.ValidateOrder` | SEList4/myapp/models.py:31-47 | No errors exactly when the customer is present and stored and the status is one of New, In Process, Sent, Completed; the product link is not checked. |
| `Models.OrderValidationExamples` | SEList4/myapp/tests/test_models.py:126-134 | Status "New" passes; a None status gives the null error; "InvalidStatus" gives the invalid-choice error. |
| `Models.InsertProduct` | SEList4/myapp/models.py:6-12 | An insert succeeds exactly when price and availability are present and the id is new. It stores exactly that row and keeps the store consistent. |
| `Models.InsertCustomer` | SEList4/myapp/models.py:22-25 | An insert succeeds exactly when the id is new, with no field checks. It stores exactly that row and keeps the store consistent. |
| `Models.InsertOrder` | SEList4/myapp/models.py:39-47 | A missing customer always fails with the NOT NULL error, whatever the status. An insert succeeds exactly when the customer exists, the status is present and the id is new. It stores an order with no links and keeps the store consistent. |
| `Models.InsertSkipsValidation` | SEList4/myapp/tests/test_models.py:13-16 | Storage accepts a product, a customer and an order that all fail full validation. |
| `Models.LinkProducts` | SEList4/myapp/models.py:43 | Linking succeeds exactly when the order and every product exist. It adds exactly those links to that order and changes nothing else. |
| `Models.LinkProductsIdempotent` | SEList4/myapp/models.py:43 | Linking the same products twice is the same as linking them once. |
| `Models.DeleteCustomer` | SEList4/myapp/models.py:40-42 | Deleting a customer removes that customer and exactly the orders that reference it. Every other order and every product are unchanged, and consistency is preserved. |
| `Models.CascadeExample` | SEList4/myapp/models.py:40-42 | In a store with two customers, deleting one leaves only the other customer and that customer's order. |
| `Models.DeleteProduct` | SEList4/myapp/models.py:43 | Deleting a product removes it and its links from every order. The orders themselves stay, and consistency is preserved. |
| `Models.ConsistentOrderStocked` | SEList4/myapp/models.py:40-43 | In a consistent store, every product linked to a stored order exists and has a price and an availability. |
| `Models.CalculateTotalPrice` | SEList4/myapp/models.py:49-50 | The total of no products is 0. Prices with at most two decimals give a total with at most two decimals. Non-negative prices give a non-negative total. |
| `Models.TotalPriceRemove` | SEList4/myapp/models.py:49-50 | The total is the same whichever product is added first: for any linked product, total = its price + the total of the rest. |
| `Models.TotalPriceUnion` | SEList4/myapp/models.py:49-50 | The total of two disjoint sets of products is exactly the sum of their totals. |
| `Models.TotalPriceExample` | SEList4/myapp/tests/test_models.py:136-139 | 10.00 + 20.00 is exactly 30.00. |
| `Models.CanFulfill` | SEList4/myapp/models.py:52-53 | Whether every linked product is available; its contract is carried by `Models.CanFulfillIff`. |
| `Models.CanFulfillIff` | SEList4/myapp/models.py:52-53 | An order can be fulfilled exactly when every linked product is available, so an order with no products can. |
| `Models.CanFulfillExamples` | SEList4/myapp/tests/test_models.py:145-153 | Products 1 and 2 (both available): true. Products 1 and 3 (3 unavailable): false. No products: true. |
| `Views.CheckPermissions` | SEList4/myapp/views.py:16 | A request is allowed exactly when every listed class grants it. A denial names a class that refused, and every class before it granted. |
| `Views.PermissionClasses` | SEList4/myapp/views.py:16-26 | Each viewset lists `IsAuthenticated`, `IsAdminOrReadOnly`, `IsAdminUser` in that order; stated by `Views.SamePolicyEverywhere` and `Views.DenialReason`. |
| `Views.Decide` | SEList4/myapp/views.py:16-26 | The decision for a request to a viewset; its contract is carried by `Views.DecideIff`, `Views.DenialReason` and `Views.SamePolicyEverywhere`. |
| `Views.DecideIff` | SEList4/myapp/views.py:16-26 | A viewset allows a request exactly when the user is authenticated, `IsAdminOrReadOnly` grants it and the user is staff. |
| `Views.AllowedOnlyForStaff` | SEList4/myapp/views.py:16 | Every allowed request comes from an authenticated staff user, for every method and whatever the opaque check says. |
| `Views.DenialReason` | SEList4/myapp/views.py:16 | An anonymous request is refused by `IsAuthenticated`. An authenticated non-staff request is refused by `IsAdminOrReadOnly` or, if that one grants it, by `IsAdminUser`. |
| `Views.AllowIndependentOfOrder` | SEList4/myapp/views.py:16 | Two lists holding the same classes allow exactly the same requests, whatever their order. |
| `Views.SamePolicyEverywhere` | SEList4/myapp/views.py:16-26 | The product, customer and order endpoints decide every request the same way. |
| `Views.ProductApiExamples` | SEList4/myapp/tests/test_views.py:24-68 | A regular user's GET, POST and DELETE on products are denied. An administrator's are allowed when `IsAdminOrReadOnly` admits administrators. |

## Findings

| source | as written | input that shows it | evidently intended | confidence | as-written member | corrected member |
|---|---|---|---|---|---|---|
| SEList4/myapp/models.py:10 | `MinValueValidator(0.01)` is given a binary float. Python compares a Decimal with a float exactly, and that float is 5764607523034235 / 2^59, slightly above 1/100. | A product priced `Decimal("0.01")` fails full validation with a minimum-value error. As written, the smallest two-decimal price that validates is 0.02. | 0.01 is the smallest accepted price. `clean` accepts it, and the test at `SEList4/myapp/tests/test_models.py:48-50` treats it as the minimum. That test never calls `full_clean`, so it does not catch this. | high; not executed | `Models.ValidateProductAsWritten`, shown by `Models.AsWrittenRejectsOneCent` and `Models.AsWrittenAcceptedPrices` | `Models.ValidateProduct`, with `Models.MinValueAgreesWithClean` |

## Left out

- HTTP routing, the viewsets' CRUD plumbing, the serializers (`myapp/serializers.py` is not part of this model) and the JSON shape of responses. This includes the HTTP status that a denial or a validation failure becomes.
- JWT token issuance and verification. The model takes the authenticated user, or the anonymous one, as given.
- `permissions.py` (`IsAdminOrReadOnly`) is not part of this model. Its request-level decision is a parameter, and its object-level check is not modelled. Object-level checks run only after every request-level check has granted the request, so they cannot widen access beyond staff users.
- The name search on products (`SearchFilter`): library behaviour that is not in the source.
- `populate_sample_data.py`: a seeding script made of database I/O and console output.
- Auto-increment ids and the `auto_now_add` creation date. Ids are given keys, and the date is excluded from validation and not stored.
- Updates by field mutation followed by `save()`, and deleting an order directly, are not modelled.
- `__str__` methods: formatting only.
- The tests' float arguments (`price=1.99`): prices are exact decimals only. The example lemmas use exact decimals such as `Decimal(199, 2)` in place of the tests' floats. Django would convert a float to a 10-digit decimal (1.99 becomes 1.990000000), which fails the two-place limit; the examples do not model that conversion.
- Field defaults: the caller supplies every field. `available` defaults to True and `status` to the empty string when not passed; the model has no "not passed" case, only a field set to None.
- Decimals with a positive exponent (`1E+3`), NaN and infinities: a scale is a natural number here.
- Python's 28-digit decimal context: sums are exact and unbounded.
- Possible rounding of decimals by the database backend when a row is saved.
- Database-side length limits on text columns: the database settings are not part of this model, and SQLite does not enforce such limits.
- Names and addresses set to `None`: they are always strings here.
- The `TypeError` that `clean` raises on a missing price: a missing price is only the price field's null error here.
- The `max_length=50` limit on status: it is never reached, because the choices check runs first and every choice is shorter.
- `Models.CalculateTotalPrice` and `Models.CanFulfill` visit the linked products in an unspecified order (`Models.Pick`). The model does not fix the order the database returns them in; `Models.TotalPriceRemove` and `Models.CanFulfillIff` show the results do not depend on it.
