# CoffeeShopDomain in Dafny

A verified model of a small in-memory coffee-shop domain: customers place
orders for coffees at a price, and each entity answers a few aggregate queries.
The model covers the whole graph Customer 1--N Order N--1 Coffee and the shared
name validator.

- `validation.dfy` (module `Validation`) holds `validate_name`. It also holds
  two vocabularies. `Value` covers the argument kinds that Python's
  `isinstance` checks tell apart: `Str`, `Float`, `Int` and `NoneValue`.
  `Error` lists every `ValueError` the domain raises, one constructor per
  condition that raises it.
- `shop.dfy` (module `Shop`) holds the classes `Coffee`, `Customer` and
  `Order`. They refer to each other, so they share one module.
  - Each `__init__` that may raise becomes a static `Create` method that
    returns a `Result`.
  - It allocates a blank object first (`_name = None`, `_name_set = False`).
    Then it assigns the name through the setter method, and only then starts
    the order list. A caller gets the object only on success, as in Python.
  - The `name` setters are `SetName` methods that return an `Outcome`.
  - `_orders` is a `seq<Order>` field that `AddOrder` extends.
  - An order's `customer`, `coffee` and `price` are `const` fields. Python
    exposes them as read-only properties with no setters.
  - The getters `name` and `orders()` are reads of the fields `name` and
    `orders`.
- `collections.dfy` (module `Collections`) holds the identity-based
  de-duplication behind `list({...})`.
- `scenarios.dfy` (module `Scenarios`) holds concrete sessions: the sample run
  of `main.py` and edge cases of the name and order checks. Each is a method
  whose postcondition states what the run observes.
- `wrappers.dfy` holds `Option`, `Result` and `Outcome`.

Invariants. `Valid()` on `Coffee` and on `Customer` states two things. The name
satisfies its rule. Every order in the entity's list points back to that entity
and has a price within [1.0, 10.0]. `add_order` itself checks nothing. So
`AddOrder` does not assume the invariant; its contract states exactly when the
invariant survives: the list stays linked if and only if the appended order
refers to this entity and has a valid price. Order construction, and
`create_order` with it, preserves `Valid()` on both sides.

Three facts about the order checks shape the model:
- A price must be a Python `float` (order/order.py:38). An `int` such as 5 is
  rejected.
- A wrong-typed customer or coffee raises `ValueError` (order/order.py:31,35).
  The separate `Error` constructors only record which check failed.
- `Order(...)` may be called directly, so `Order.Create` is public.

## Model

| member | source | states |
|---|---|---|
| `Validation.ValidateName` | utils/validation.py:1-19 | passes exactly when the value is a string whose length lies within the inclusive bounds; otherwise fails with the error naming those bounds |
| `Validation.ValidateNameAcceptsBounds` | utils/validation.py:16-17 | a string whose length equals either bound passes: both bounds are inclusive |
| `Validation.ValidateNameRejectsShort` | utils/validation.py:16-19 | a string shorter than `min_length` fails, with an error naming the allowed range |
| `Validation.ValidateNameRejectsLong` | utils/validation.py:16-19 | a string longer than `max_length` fails, with an error naming the allowed range |
| `Validation.ValidateNameRejectsNonString` | utils/validation.py:16-19 | a value that is not a string fails whatever the bounds |
| `Collections.Distinct` | coffee/coffee.py:72 | the de-duplicated list has no repeated element, has exactly the members of its input, and is no longer than it |
| `Shop.OrderCheck` | order/order.py:29-39 | the checks pass exactly when the customer is a Customer, the coffee is a Coffee and the price is a float within [1.0, 10.0]; they run in order, so a bad customer gives the customer error whatever else is wrong, a bad coffee with a good customer gives the coffee error, and otherwise a failure is the price error |
| `Shop.OrderCheckRejectsIntPrice` | order/order.py:11-12 | an integer price is rejected even inside the bounds |
| `Shop.SumPrices` | coffee/coffee.py:93 | when every price lies in [1.0, 10.0], the total of n orders lies in [n * 1.0, n * 10.0] |
| `Shop.Coffee.Valid` | coffee/coffee.py:22-24 | a valid coffee has its set-once flag up and a name of 3 to 50 characters; every order in its list refers back to it; when it has orders, its average price lies in [1.0, 10.0] |
| `Shop.Coffee.Blank` | coffee/coffee.py:21-22 | a blank coffee has no name and the set-once flag down |
| `Shop.Coffee.Create` | coffee/coffee.py:11-24 | construction succeeds iff the name is a string of 3 to 50 characters; on success the name is the argument, the name is marked set, the order list is empty and the coffee is valid; otherwise it fails with the 3..50 name error |
| `Shop.Coffee.SetName` | coffee/coffee.py:36-53 | once the name is set, every assignment fails with the immutability error, even with the same value; before that it fails exactly as `validate_name(name, 3, 50)` does; a failure changes neither the name nor the flag; the flag is raised only together with a stored, validated name |
| `Shop.Coffee.Customers` | coffee/coffee.py:64-72 | the result has no duplicates; every customer in it placed one of this coffee's orders; every order's customer is in it; it is no longer than the order list |
| `Shop.Coffee.NumOrders` | coffee/coffee.py:74-81 | the count equals the length of the order list and is at least the number of distinct customers |
| `Shop.Coffee.AveragePrice` | coffee/coffee.py:83-94 | 0 with no orders; otherwise the mean, so that mean * count = sum of prices; with all prices valid the mean lies in [1.0, 10.0] |
| `Shop.Coffee.AddOrder` | coffee/coffee.py:96-103 | appends exactly the given order at the end and touches nothing else; the list stays linked iff the order refers to this coffee and has a valid price |
| `Shop.Customer.Valid` | customer/customer.py:19-21 | a valid customer has a name of 1 to 15 characters, and every order in its list refers back to it |
| `Shop.Customer.Blank` | customer/customer.py:19 | a blank customer has no name |
| `Shop.Customer.Create` | customer/customer.py:9-21 | construction succeeds iff the name is a string of 1 to 15 characters; on success the name is the argument, the order list is empty and the customer is valid; otherwise it fails with the 1..15 name error |
| `Shop.Customer.SetName` | customer/customer.py:33-47 | with no condition on the current state, an assignment succeeds iff the value is a string of 1 to 15 characters and then stores it; a rejected assignment keeps the previous name |
| `Shop.Customer.Coffees` | customer/customer.py:58-65 | the result has no duplicates; every coffee in it belongs to one of this customer's orders; every order's coffee is in it; it is no longer than the order list |
| `Shop.Customer.CreateOrder` | customer/customer.py:67-81 | succeeds iff the coffee is a Coffee and the price a valid float; on success it returns a new order for this customer, this coffee and this price, appended twice to the customer's list and once to the coffee's; on failure it returns the order constructor's error and neither list changes; names are untouched; validity of both entities is preserved |
| `Shop.Customer.CreateOrderLinkedOnce` | customer/customer.py:78-81 | the corrected factory: the same contract as `CreateOrder`, except that the customer's list gains the order once; a duplicate-free customer list stays duplicate-free |
| `Shop.Customer.AddOrder` | customer/customer.py:83-90 | appends exactly the given order at the end and touches nothing else; the list stays linked iff the order refers to this customer and has a valid price |
| `Shop.Order.Link` | order/order.py:41-49 | stores customer, coffee, price and date as given, then appends the order once at the end of the customer's list and once at the end of the coffee's |
| `Shop.Order.Create` | order/order.py:14-49 | fails exactly when a check fails, with the first failing check's error (customer type, coffee type, then price), and then changes neither the customer nor the coffee; on success the new order holds exactly its arguments, has a valid price and sits once at the end of both lists; names are untouched |
| `Scenarios.OpenShop` | main.py:12-17 | John, Jane, the Espresso and the Latte are created as distinct objects with empty order lists |
| `Scenarios.PlaceMainOrders` | main.py:19-26 | after John orders the Espresso at 2.50, Jane the Latte at 3.75 and John the Latte at 3.50, John's list is `[o1, o1, o3, o3]`, the Espresso's `[o1]` and the Latte's `[o2, o3]` |
| `Scenarios.MainSession` | main.py:12-58 | after those orders the Latte has 2 orders averaging 3.625; John's distinct coffees are exactly the Espresso and the Latte; the Espresso's customers are exactly [John]; John's list has 4 entries; renaming the Espresso to "Espresso Roast" fails as immutable; renaming John to "Johnny" succeeds |
| `Scenarios.EspressoScenario` | coffee/coffee.py:47-53 | "Es" is rejected as a coffee name; after "Espresso" is accepted, renaming it to "x" or to "Espresso" fails as immutable and the name stays "Espresso" |
| `Scenarios.RenameScenario` | main.py:57-58 | a customer renamed to "Johnny" keeps that name after rejected renames to "" and to a 16-character name |
| `Scenarios.RejectedOrderScenario` | order/order.py:29-39 | an order whose customer is not a Customer fails with the customer error and is not registered with the coffee; an integer price 5 fails with the price error |
| `Scenarios.DoubleRegistration` | customer/customer.py:79-80 | after one successful `create_order` as written, the customer's list holds the order twice while the coffee's holds it once; with the corrected factory both hold it once |

## Findings

| source | as written | input that shows it | evidently intended | confidence | as-written member | corrected member |
|---|---|---|---|---|---|---|
| customer/customer.py:79-80 | `create_order` appends the new order to the customer's list, but the `Order` constructor already appended it (order/order.py:48) | `John.create_order(Espresso, 2.50)` on a fresh customer leaves `John.orders() == [o, o]`, while `Espresso.orders() == [o]` | each order appears once in its customer's list, as in its coffee's | high; not executed | `Scenarios.DoubleRegistration` (over `Shop.Customer.CreateOrder`) | `Shop.Customer.CreateOrderLinkedOnce` |

`Shop.Customer.CreateOrder` keeps the behaviour as written, because it is what
the system does. The scenarios use it to reproduce the sample session. The
de-duplicating queries (`Coffees`, `Customers`) and the coffee-side counts are
the same under both factories. Only the customer's own order list differs.

## Left out

- The clock: `datetime.now()` in `Order.__init__` becomes the `now` parameter, stored in `orderDate`.
- Floating point: prices and averages are `real`, so IEEE rounding in `sum(...) / len(...)` is not modelled.
- `Shop.Coffee.AveragePrice`: returns `0.0` for an empty coffee, where Python returns the `int` 0. The value is the same.
- `Shop.Coffee.Customers` and `Shop.Customer.Coffees`: Python's element order is unspecified. The model returns one order: first occurrence. The contracts promise only membership and the absence of duplicates.
- Returned lists are live aliases in Python. `orders()` hands out the internal list, so a caller could mutate it. In the model, `orders` is a `seq` value, so mutation through a returned list is not modelled.
- Argument kinds: `Value` covers strings, floats, ints and `None` only.
  - A Python `bool` counts as an `Int`.
  - A wrong-typed customer or coffee is modelled as a null reference. An object of the other entity class cannot be passed in that position.
- Error messages: each `ValueError`'s text is reduced to an `Error` constructor that carries the bounds the message names.
- `__str__` on all three classes, and the `:.2f` formatting, are not modelled (text output only).
- The printing in `main.py` is not modelled. Its session is reproduced by `Scenarios.MainSession`.
- The `TYPE_CHECKING` imports and the local imports are not modelled: they only break import cycles.
