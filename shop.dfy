/**
 * The coffee-shop entity graph: Customer 1--N Order N--1 Coffee.
 *
 * The three classes refer to each other, so they share one module. An `Order`
 * is the join entity: building one registers it with its customer and its
 * coffee. Each Python `__init__` that may raise is a static `Create` method
 * returning a `Result`; the object it builds is only handed out on success,
 * as in Python, where a raising `__init__` leaves the caller without an object.
 */
module Shop {
  import opened Wrappers
  import opened Validation
  import opened Collections

  /** Coffee names: 3 to 50 characters (coffee/coffee.py). */
  const CoffeeMinName := 3
  const CoffeeMaxName := 50
  /** Customer names: 1 to 15 characters (customer/customer.py). */
  const CustomerMinName := 1
  const CustomerMaxName := 15
  /** `Order.MIN_PRICE` and `Order.MAX_PRICE`, both inclusive. */
  const MinPrice: real := 1.0
  const MaxPrice: real := 10.0

  /** A price argument the order constructor accepts: a float within [MinPrice, MaxPrice]. */
  predicate IsValidPrice(price: Value) {
    price.Float? && MinPrice <= price.x <= MaxPrice
  }

  /**
   * The checks `Order.__init__` makes before touching anything, in its order:
   * the customer's type, then the coffee's type, then the price. A null
   * reference stands for an argument that is not an instance of the class.
   */
  function OrderCheck(customer: Customer?, coffee: Coffee?, price: Value): (r: Outcome<Error>)
    ensures r.Pass? <==> customer != null && coffee != null && price.Float? && MinPrice <= price.x <= MaxPrice
    ensures customer == null ==> r == Fail(NotACustomer)
    ensures customer != null && coffee == null ==> r == Fail(NotACoffee)
    ensures customer != null && coffee != null && r.Fail? ==> r.error == InvalidPrice(MinPrice, MaxPrice)
  {
    if customer == null then Fail(NotACustomer)
    else if coffee == null then Fail(NotACoffee)
    else if !IsValidPrice(price) then Fail(InvalidPrice(MinPrice, MaxPrice))
    else Pass
  }

  /** An integer price, such as 5, is rejected even though it lies within bounds. */
  lemma OrderCheckRejectsIntPrice(customer: Customer, coffee: Coffee, n: int)
    ensures OrderCheck(customer, coffee, Int(n)) == Fail(InvalidPrice(MinPrice, MaxPrice))
  {
  }

  /** Every order's price lies within the bounds the order constructor enforces. */
  predicate AllPricesValid(orders: seq<Order>) {
    forall i :: 0 <= i < |orders| ==> orders[i].Valid()
  }

  /**
   * `sum(order.price for order in orders)`. With every price in bounds, n
   * orders cost between n * MinPrice and n * MaxPrice together.
   */
  function SumPrices(orders: seq<Order>): (r: real)
    ensures AllPricesValid(orders) ==> |orders| as real * MinPrice <= r <= |orders| as real * MaxPrice
  {
    if orders == [] then 0.0
    else
      var prefix := orders[..|orders| - 1];
      assert AllPricesValid(orders) ==> AllPricesValid(prefix) by {
        forall i | 0 <= i < |prefix| ensures prefix[i] == orders[i] { }
      }
      SumPrices(prefix) + orders[|orders| - 1].price
  }

  /** A mean of n values each within [lo, hi] lies within [lo, hi]. */
  lemma MeanWithin(sum: real, n: real, lo: real, hi: real)
    requires n > 0.0
    requires n * lo <= sum <= n * hi
    ensures lo <= sum / n <= hi
  {
  }

  class Coffee {
    /** `_name`: None until the first successful assignment. */
    var name: Option<string>
    /** `_name_set`: whether the name has been assigned once already. */
    var nameSet: bool
    /** `_orders`: every order of this coffee, in registration order. */
    var orders: seq<Order>

    /** The flag is set exactly when a validated name is stored. */
    predicate NameValid()
      reads this
    {
      nameSet && name.Some? && LengthWithin(name.value, CoffeeMinName, CoffeeMaxName)
    }

    /** Every order in the list points back to this coffee and has a price in bounds. */
    predicate OrdersLinked()
      reads this
    {
      forall i :: 0 <= i < |orders| ==> orders[i].coffee == this && orders[i].Valid()
    }

    /**
     * A valid coffee carries a set, validated name; each of its orders refers
     * back to it; and its average price lies within the price bounds.
     */
    predicate Valid()
      reads this
      ensures Valid() ==> nameSet && name.Some? && CoffeeMinName <= |name.value| <= CoffeeMaxName
      ensures Valid() ==> forall o :: o in orders ==> o.coffee == this
      ensures Valid() && orders != [] ==> MinPrice <= AveragePrice() <= MaxPrice
    {
      NameValid() && OrdersLinked()
    }

    /** The first lines of `__init__`: `_name = None` and `_name_set = False`. */
    constructor Blank()
      ensures name == None && !nameSet
    {
      name := None;
      nameSet := false;
    }

    /**
     * `Coffee(name)`: assigns the name through the set-once setter, which may
     * raise, and only then starts with an empty order list.
     */
    static method Create(name: Value) returns (r: Result<Coffee, Error>)
      ensures r.Success? <==> IsValidName(name, CoffeeMinName, CoffeeMaxName)
      ensures r.Failure? ==> r.error == InvalidName(CoffeeMinName, CoffeeMaxName)
      ensures r.Success? ==>
        fresh(r.value) && r.value.Valid() && r.value.name == Some(name.s) && r.value.orders == []
    {
      var coffee := new Coffee.Blank();
      var outcome := coffee.SetName(name);
      if outcome.Fail? {
        return Failure(outcome.error);
      }
      coffee.orders := [];
      return Success(coffee);
    }

    /**
     * The `name` setter. Once the name is set, every assignment raises, even one
     * with the same value; otherwise the name is validated first, and the flag is
     * raised only after the validated name is stored.
     */
    method SetName(newName: Value) returns (outcome: Outcome<Error>)
      modifies this`name, this`nameSet
      ensures old(nameSet) ==> outcome == Fail(NameImmutable)
      ensures !old(nameSet) ==> outcome == ValidateName(newName, CoffeeMinName, CoffeeMaxName)
      ensures outcome.Pass? ==> name == Some(newName.s) && nameSet
      ensures outcome.Fail? ==> name == old(name) && nameSet == old(nameSet)
    {
      if nameSet {
        return Fail(NameImmutable);
      }
      outcome := ValidateName(newName, CoffeeMinName, CoffeeMaxName);
      if outcome.Fail? {
        return;
      }
      name := Some(newName.s);
      nameSet := true;
    }

    /**
     * `customers()`: the distinct customers of this coffee's orders, by identity.
     * Python returns them in unspecified order; no customer appears twice.
     */
    function Customers(): (r: seq<Customer>)
      reads this
      ensures NoDuplicates(r)
      ensures forall i :: 0 <= i < |r| ==> exists j :: 0 <= j < |orders| && orders[j].customer == r[i]
      ensures forall j :: 0 <= j < |orders| ==> orders[j].customer in r
      ensures |r| <= |orders|
    {
      var os := orders;
      var all: seq<Customer> := seq(|os|, i requires 0 <= i < |os| => os[i].customer);
      var r := Distinct(all);
      assert forall i :: 0 <= i < |r| ==> r[i] in all;
      assert forall j :: 0 <= j < |os| ==> all[j] in r && all[j] == os[j].customer;
      r
    }

    /**
     * `num_orders()`: the number of orders registered with this coffee, which
     * bounds the number of distinct customers who placed them.
     */
    function NumOrders(): (n: nat)
      reads this
      ensures n == |orders|
      ensures |Customers()| <= n
    {
      |orders|
    }

    /**
     * `average_price()`: 0 when there are no orders, otherwise the mean price;
     * for a valid coffee that mean lies within the price bounds.
     */
    function AveragePrice(): (r: real)
      reads this
      ensures orders == [] ==> r == 0.0
      ensures orders != [] ==> r * (|orders| as real) == SumPrices(orders)
      ensures orders != [] && AllPricesValid(orders) ==> MinPrice <= r <= MaxPrice
    {
      if orders == [] then 0.0
      else
        var n := |orders| as real;
        var total := SumPrices(orders);
        assert AllPricesValid(orders) ==> MinPrice <= total / n <= MaxPrice by {
          if AllPricesValid(orders) {
            MeanWithin(total, n, MinPrice, MaxPrice);
          }
        }
        total / n
    }

    /**
     * `add_order(order)`: appends without checking the order. The list stays
     * linked exactly when the order refers to this coffee and has a valid price.
     */
    method AddOrder(order: Order)
      modifies this`orders
      ensures orders == old(orders) + [order]
      ensures OrdersLinked() <==> old(OrdersLinked()) && order.coffee == this && order.Valid()
    {
      orders := orders + [order];
      assert orders[|orders| - 1] == order;
      assert forall i :: 0 <= i < |old(orders)| ==> orders[i] == old(orders)[i];
    }
  }

  class Customer {
    /** `_name`: None only before the constructor's first assignment. */
    var name: Option<string>
    /** `_orders`: the customer's orders, in registration order. */
    var orders: seq<Order>

    predicate NameValid()
      reads this
    {
      name.Some? && LengthWithin(name.value, CustomerMinName, CustomerMaxName)
    }

    /** Every order in the list points back to this customer and has a price in bounds. */
    predicate OrdersLinked()
      reads this
    {
      forall i :: 0 <= i < |orders| ==> orders[i].customer == this && orders[i].Valid()
    }

    /**
     * A valid customer carries a validated name, and each of its orders refers
     * back to it.
     */
    predicate Valid()
      reads this
      ensures Valid() ==> name.Some? && CustomerMinName <= |name.value| <= CustomerMaxName
      ensures Valid() ==> forall o :: o in orders ==> o.customer == this
    {
      NameValid() && OrdersLinked()
    }

    /** The first line of `__init__`: `_name = None`. */
    constructor Blank()
      ensures name == None
    {
      name := None;
    }

    /** `Customer(name)`: assigns the name through the validating setter, then starts with no orders. */
    static method Create(name: Value) returns (r: Result<Customer, Error>)
      ensures r.Success? <==> IsValidName(name, CustomerMinName, CustomerMaxName)
      ensures r.Failure? ==> r.error == InvalidName(CustomerMinName, CustomerMaxName)
      ensures r.Success? ==>
        fresh(r.value) && r.value.Valid() && r.value.name == Some(name.s) && r.value.orders == []
    {
      var customer := new Customer.Blank();
      var outcome := customer.SetName(name);
      if outcome.Fail? {
        return Failure(outcome.error);
      }
      customer.orders := [];
      return Success(customer);
    }

    /**
     * The `name` setter: any number of assignments, each validated (a string of
     * 1 to 15 characters); a rejected one leaves the previous name in place.
     */
    method SetName(newName: Value) returns (outcome: Outcome<Error>)
      modifies this`name
      ensures outcome.Pass? <==> IsValidName(newName, CustomerMinName, CustomerMaxName)
      ensures outcome.Pass? ==> name == Some(newName.s)
      ensures outcome.Fail? ==>
        outcome.error == InvalidName(CustomerMinName, CustomerMaxName) && name == old(name)
    {
      if newName.Str? && CustomerMinName <= |newName.s| <= CustomerMaxName {
        name := Some(newName.s);
        return Pass;
      }
      return Fail(InvalidName(CustomerMinName, CustomerMaxName));
    }

    /**
     * `coffees()`: the distinct coffees of this customer's orders, by identity.
     * Python returns them in unspecified order; no coffee appears twice.
     */
    function Coffees(): (r: seq<Coffee>)
      reads this
      ensures NoDuplicates(r)
      ensures forall i :: 0 <= i < |r| ==> exists j :: 0 <= j < |orders| && orders[j].coffee == r[i]
      ensures forall j :: 0 <= j < |orders| ==> orders[j].coffee in r
      ensures |r| <= |orders|
    {
      var os := orders;
      var all: seq<Coffee> := seq(|os|, i requires 0 <= i < |os| => os[i].coffee);
      var r := Distinct(all);
      assert forall i :: 0 <= i < |r| ==> r[i] in all;
      assert forall j :: 0 <= j < |os| ==> all[j] in r && all[j] == os[j].coffee;
      r
    }

    /**
     * `create_order(coffee, price)`, as written: the order's constructor already
     * registers the order with this customer, and `create_order` registers it a
     * second time, so the customer's list gains it twice and the coffee's once.
     * A failing constructor changes neither list.
     */
    method CreateOrder(coffee: Coffee?, price: Value, now: int) returns (r: Result<Order, Error>)
      modifies this, coffee
      ensures r.Success? <==> coffee != null && IsValidPrice(price)
      ensures r.Failure? ==> r.error == OrderCheck(this, coffee, price).error
      ensures r.Failure? ==> orders == old(orders) && (coffee != null ==> coffee.orders == old(coffee.orders))
      ensures r.Success? ==>
        fresh(r.value) && coffee != null &&
        r.value.customer == this && r.value.coffee == coffee && r.value.price == price.x &&
        orders == old(orders) + [r.value, r.value] && coffee.orders == old(coffee.orders) + [r.value]
      ensures name == old(name)
      ensures coffee != null ==> coffee.name == old(coffee.name) && coffee.nameSet == old(coffee.nameSet)
      ensures old(Valid()) ==> Valid()
      ensures coffee != null && old(coffee.Valid()) ==> coffee.Valid()
    {
      r := Order.Create(this, coffee, price, now);
      if r.Success? {
        AddOrder(r.value);
      }
    }

    /**
     * The single-registration `create_order` that the duplicate call evidently
     * did not intend: the order's constructor alone links it, once on each side.
     */
    method CreateOrderLinkedOnce(coffee: Coffee?, price: Value, now: int) returns (r: Result<Order, Error>)
      modifies this, coffee
      ensures r.Success? <==> coffee != null && IsValidPrice(price)
      ensures r.Failure? ==> r.error == OrderCheck(this, coffee, price).error
      ensures r.Failure? ==> orders == old(orders) && (coffee != null ==> coffee.orders == old(coffee.orders))
      ensures r.Success? ==>
        fresh(r.value) && coffee != null &&
        r.value.customer == this && r.value.coffee == coffee && r.value.price == price.x &&
        orders == old(orders) + [r.value] && coffee.orders == old(coffee.orders) + [r.value]
      ensures name == old(name)
      ensures coffee != null ==> coffee.name == old(coffee.name) && coffee.nameSet == old(coffee.nameSet)
      ensures old(Valid()) ==> Valid()
      ensures coffee != null && old(coffee.Valid()) ==> coffee.Valid()
      ensures old(NoDuplicates(orders)) ==> NoDuplicates(orders)
    {
      r := Order.Create(this, coffee, price, now);
      if r.Success? {
        assert r.value !in old(orders);
      }
    }

    /**
     * `add_order(order)`: appends without checking the order. The list stays
     * linked exactly when the order refers to this customer and has a valid price.
     */
    method AddOrder(order: Order)
      modifies this`orders
      ensures orders == old(orders) + [order]
      ensures OrdersLinked() <==> old(OrdersLinked()) && order.customer == this && order.Valid()
    {
      orders := orders + [order];
      assert orders[|orders| - 1] == order;
      assert forall i :: 0 <= i < |old(orders)| ==> orders[i] == old(orders)[i];
    }
  }

  class Order {
    /** `_customer`, `_coffee` and `_price`: read-only properties, fixed at construction. */
    const customer: Customer
    const coffee: Coffee
    const price: real
    /** `order_date`: the clock reading at construction, supplied by the caller. */
    var orderDate: int

    /** The price lies within the bounds the constructor enforces. */
    predicate Valid() {
      MinPrice <= price <= MaxPrice
    }

    /**
     * The tail of `__init__`, reached only after every check passed: store the
     * fields, then append this order to the customer's list and to the coffee's.
     */
    constructor Link(customer: Customer, coffee: Coffee, price: real, now: int)
      modifies customer`orders, coffee`orders
      ensures this.customer == customer && this.coffee == coffee && this.price == price
      ensures orderDate == now
      ensures customer.orders == old(customer.orders) + [this]
      ensures coffee.orders == old(coffee.orders) + [this]
    {
      this.customer := customer;
      this.coffee := coffee;
      this.price := price;
      orderDate := now;
      new;
      customer.AddOrder(this);
      coffee.AddOrder(this);
    }

    /**
     * `Order(customer, coffee, price)`: every check precedes any change, so a
     * rejected order is registered nowhere; an accepted one is appended exactly
     * once to each of its two lists.
     */
    static method Create(customer: Customer?, coffee: Coffee?, price: Value, now: int)
      returns (r: Result<Order, Error>)
      modifies customer, coffee
      ensures r.Failure? <==> OrderCheck(customer, coffee, price).Fail?
      ensures r.Failure? ==> r.error == OrderCheck(customer, coffee, price).error
      ensures r.Failure? ==>
        (customer != null ==> unchanged(customer)) && (coffee != null ==> unchanged(coffee))
      ensures r.Success? ==>
        fresh(r.value) && customer != null && coffee != null &&
        r.value.customer == customer && r.value.coffee == coffee && r.value.price == price.x &&
        r.value.Valid() && r.value.orderDate == now &&
        customer.orders == old(customer.orders) + [r.value] &&
        coffee.orders == old(coffee.orders) + [r.value]
      ensures customer != null ==> customer.name == old(customer.name)
      ensures coffee != null ==> coffee.name == old(coffee.name) && coffee.nameSet == old(coffee.nameSet)
    {
      var check := OrderCheck(customer, coffee, price);
      if check.Fail? {
        return Failure(check.error);
      }
      var order := new Order.Link(customer, coffee, price.x, now);
      return Success(order);
    }
  }
}
