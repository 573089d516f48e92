/**
 * Concrete runs of the domain, each stated as a method whose postcondition is
 * what the run must observe: the sample session of main.py and edge cases of
 * the name and order checks (a too-short coffee name, a renamed coffee, an
 * order for something that is not a customer, an integer price).
 */
module Scenarios {
  import opened Wrappers
  import opened Validation
  import opened Collections
  import opened Shop

  /** The customers and coffees of main.py: John, Jane, an Espresso and a Latte, all without orders. */
  method OpenShop() returns (john: Customer, jane: Customer, espresso: Coffee, latte: Coffee)
    ensures fresh(john) && fresh(jane) && fresh(espresso) && fresh(latte)
    ensures john != jane && espresso != latte
    ensures john.orders == [] && jane.orders == [] && espresso.orders == [] && latte.orders == []
    ensures espresso.Valid() && latte.Valid()
  {
    var customer := Customer.Create(Str("John"));
    john := customer.value;
    customer := Customer.Create(Str("Jane"));
    jane := customer.value;
    var coffee := Coffee.Create(Str("Espresso"));
    espresso := coffee.value;
    coffee := Coffee.Create(Str("Latte"));
    latte := coffee.value;
  }

  /**
   * The orders of main.py: John orders an Espresso at 2.50, Jane a Latte at
   * 3.75, and John a Latte at 3.50. John's list registers each of his orders
   * twice; each coffee's list registers each of its orders once.
   */
  method PlaceMainOrders()
    returns (john: Customer, espresso: Coffee, latte: Coffee, order1: Order, order2: Order, order3: Order)
    ensures john.orders == [order1, order1, order3, order3]
    ensures espresso.orders == [order1] && latte.orders == [order2, order3]
    ensures order1.customer == john && order1.coffee == espresso && order1.price == 2.50
    ensures order2.customer != john && order2.coffee == latte && order2.price == 3.75
    ensures order3.customer == john && order3.coffee == latte && order3.price == 3.50
    ensures espresso != latte && espresso.Valid() && latte.Valid()
    ensures fresh(john) && fresh(espresso) && fresh(latte)
  {
    var jane;
    john, jane, espresso, latte := OpenShop();
    var placed := john.CreateOrder(espresso, Float(2.50), 0);
    order1 := placed.value;
    assert john.orders == [order1, order1] && espresso.orders == [order1] && latte.orders == [];
    placed := jane.CreateOrder(latte, Float(3.75), 1);
    order2 := placed.value;
    assert john.orders == [order1, order1] && espresso.orders == [order1] && latte.orders == [order2];
    placed := john.CreateOrder(latte, Float(3.50), 2);
    order3 := placed.value;
  }

  /**
   * The queries of main.py after those orders. The Latte has two orders
   * averaging 3.625; John's distinct coffees are exactly the Espresso and the
   * Latte; the Espresso's only customer is John; John's own list holds four
   * entries. Renaming the Espresso fails as immutable, and renaming John to
   * "Johnny" succeeds.
   */
  method MainSession()
    returns (john: Customer, espresso: Coffee, latte: Coffee,
             latteOrders: nat, average: real, johnCoffees: seq<Coffee>, espressoCustomers: seq<Customer>,
             johnOrders: nat, renamedEspresso: Outcome<Error>, renamedJohn: Outcome<Error>, johnName: Option<string>)
    ensures latteOrders == 2
    ensures average == 3.625
    ensures NoDuplicates(johnCoffees) && |johnCoffees| == 2 && espresso in johnCoffees && latte in johnCoffees
    ensures espressoCustomers == [john]
    ensures johnOrders == 4
    ensures renamedEspresso == Fail(NameImmutable)
    ensures renamedJohn == Pass && johnName == Some("Johnny")
  {
    var order1, order2, order3;
    john, espresso, latte, order1, order2, order3 := PlaceMainOrders();

    johnOrders := |john.orders|;
    CoffeesAreExactly(john, espresso, latte, 0, 2);
    johnCoffees := john.Coffees();

    CustomersAreExactly(espresso, john);
    espressoCustomers := espresso.Customers();

    latteOrders := latte.NumOrders();
    SumPricesOfTwo(order2, order3);
    average := latte.AveragePrice();

    renamedEspresso := espresso.SetName(Str("Espresso Roast"));
    renamedJohn := john.SetName(Str("Johnny"));
    johnName := john.name;
  }

  /**
   * A customer whose orders are all for x or y, with an order for x at index i
   * and one for y at index j, has exactly the two distinct coffees x and y.
   */
  lemma CoffeesAreExactly(c: Customer, x: Coffee, y: Coffee, i: nat, j: nat)
    requires x != y && i < |c.orders| && j < |c.orders|
    requires c.orders[i].coffee == x && c.orders[j].coffee == y
    requires forall k :: 0 <= k < |c.orders| ==> c.orders[k].coffee == x || c.orders[k].coffee == y
    ensures NoDuplicates(c.Coffees()) && |c.Coffees()| == 2 && x in c.Coffees() && y in c.Coffees()
  {
    var r := c.Coffees();
    assert forall k :: 0 <= k < |r| ==> r[k] == x || r[k] == y;
    TwoDistinctValues(r, x, y);
  }

  /** A coffee with orders, all placed by c, has exactly one distinct customer: c. */
  lemma CustomersAreExactly(k: Coffee, c: Customer)
    requires k.orders != []
    requires forall i :: 0 <= i < |k.orders| ==> k.orders[i].customer == c
    ensures k.Customers() == [c]
  {
    var r := k.Customers();
    assert k.orders[0].customer == c;
    SingleDistinctValue(r, c);
  }

  /** The total of a two-order list, unfolded. */
  lemma SumPricesOfTwo(a: Order, b: Order)
    ensures SumPrices([a, b]) == a.price + b.price
  {
    assert [a][..0] == [];
    assert SumPrices([a]) == a.price;
    assert [a, b][..1] == [a];
  }

  /**
   * "Es" is too short for a coffee name; "Espresso" is accepted, after which
   * renaming it fails, to another name and to the same name alike, and the
   * stored name stays "Espresso".
   */
  method EspressoScenario() returns (tooShort: Result<Coffee, Error>, renamed: Outcome<Error>, same: Outcome<Error>, name: Option<string>)
    ensures tooShort == Failure(InvalidName(3, 50))
    ensures renamed == Fail(NameImmutable)
    ensures same == Fail(NameImmutable)
    ensures name == Some("Espresso")
  {
    tooShort := Coffee.Create(Str("Es"));
    var espresso := Coffee.Create(Str("Espresso"));
    renamed := espresso.value.SetName(Str("x"));
    same := espresso.value.SetName(Str("Espresso"));
    name := espresso.value.name;
  }

  /**
   * A customer may be renamed any number of times to valid names; an empty or
   * over-long name is rejected and leaves the current name in place.
   */
  method RenameScenario() returns (renamed: Outcome<Error>, empty: Outcome<Error>, tooLong: Outcome<Error>, name: Option<string>)
    ensures renamed == Pass
    ensures empty == Fail(InvalidName(1, 15))
    ensures tooLong == Fail(InvalidName(1, 15))
    ensures name == Some("Johnny")
  {
    var john := Customer.Create(Str("John"));
    renamed := john.value.SetName(Str("Johnny"));
    empty := john.value.SetName(Str(""));
    tooLong := john.value.SetName(Str("Johnny Appleseed"));
    name := john.value.name;
  }

  /**
   * An order whose customer is not a Customer is rejected with the customer
   * error (a `ValueError`) and does not appear in the coffee's list; so is an integer price of 5, even
   * though 5 lies within the price bounds.
   */
  method RejectedOrderScenario() returns (notACustomer: Result<Order, Error>, intPrice: Result<Order, Error>, coffeeOrders: nat)
    ensures notACustomer == Failure(NotACustomer)
    ensures intPrice == Failure(InvalidPrice(1.0, 10.0))
    ensures coffeeOrders == 0
  {
    var jane := Customer.Create(Str("Jane"));
    var created := Coffee.Create(Str("Mocha"));
    var mocha := created.value;
    notACustomer := Order.Create(null, mocha, Float(5.0), 0);
    intPrice := jane.value.CreateOrder(mocha, Int(5), 0);
    coffeeOrders := mocha.NumOrders();
  }

  /**
   * One successful `create_order`, as written and as corrected: as written,
   * the customer's list holds the new order twice while the coffee's holds it
   * once; with the single registration both hold it once.
   */
  method DoubleRegistration() returns (asWritten: seq<Order>, asWrittenCoffee: nat, corrected: seq<Order>, correctedCoffee: nat)
    ensures |asWritten| == 2 && asWritten[0] == asWritten[1] && !NoDuplicates(asWritten)
    ensures asWrittenCoffee == 1
    ensures |corrected| == 1 && NoDuplicates(corrected)
    ensures correctedCoffee == 1
  {
    var john := Customer.Create(Str("John"));
    var espresso := Coffee.Create(Str("Espresso"));
    var o := john.value.CreateOrder(espresso.value, Float(2.50), 0);
    asWritten := john.value.orders;
    asWrittenCoffee := espresso.value.NumOrders();

    var jane := Customer.Create(Str("Jane"));
    var latte := Coffee.Create(Str("Latte"));
    var p := jane.value.CreateOrderLinkedOnce(latte.value, Float(3.75), 0);
    corrected := jane.value.orders;
    correctedCoffee := latte.value.NumOrders();
  }
}
