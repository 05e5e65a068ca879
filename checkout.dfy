/**
 * The checkout of the dealership application (`Main`): the purchase screen's
 * cart and list of cars on offer, the order summary, the commit loop that
 * records one sale per car and takes the car off the dealership's list, and
 * the form handlers that add cars, customers and a new store.
 *
 * The sales the program appends to its sales file, and the car and customer
 * lists it writes back, are ghost fields here: the model keeps what was
 * written, not how.
 */
module Checkout {
  import opened Wrappers
  import opened Lists
  import opened Pricing
  import opened Entities
  import opened Inventory
  import opened Validation

  /**
   * An allocated amount as the program computes it. `NaN` is the IEEE value a
   * division of zero by zero leaves behind: with a zero base total the tax,
   * discount and final total are all zero, and zero times `price / 0.0` is NaN
   * whatever the price.
   */
  datatype Amount = Exact(value: real) | NaN

  /** IEEE addition, restricted to the two kinds of amount: NaN absorbs everything. */
  function Plus(a: Amount, b: Amount): Amount
  {
    if a.Exact? && b.Exact? then Exact(a.value + b.value) else NaN
  }

  /** `amount * (price / base)`: a car's part of an amount of the whole cart. */
  function Share(amount: real, price: real, base: real): (r: Amount)
    ensures r.NaN? <==> base == 0.0
  {
    if base == 0.0 then NaN else Exact(Part(amount, price, base))
  }

  /** What one call of the sales ledger receives: the car and customer, their names, and four amounts. */
  datatype Sale = Sale(car: Car, customer: Customer, brand: string, model: string,
                       customerName: string, customerEmail: string,
                       basePrice: real, tax: Amount, discount: Amount, finalPrice: Amount)

  /** The sale of one car of the cart, with its proportional part of the quote's tax, discount and total. */
  function SaleOf(car: Car, customer: Customer, q: Quote): Sale
    reads car, customer
  {
    Sale(car, customer, car.brand, car.model, customer.name, customer.email, car.price,
         Share(q.tax, car.price, q.base), Share(q.discount, car.price, q.base),
         Share(q.finalTotal, car.price, q.base))
  }

  /** The sales a confirmed checkout of `cars` records: one per car, in cart order. */
  function SalesFor(cars: seq<Car>, customer: Customer, q: Quote): (r: seq<Sale>)
    reads cars, customer
    ensures |r| == |cars|
    ensures forall i :: 0 <= i < |cars| ==> r[i] == SaleOf(cars[i], customer, q)
  {
    if cars == [] then [] else SalesFor(cars[..|cars| - 1], customer, q) + [SaleOf(cars[|cars| - 1], customer, q)]
  }

  /** The prices of the cars, in cart order. */
  function PricesOf(cars: seq<Car>): (r: seq<real>)
    reads cars
    ensures |r| == |cars|
    ensures forall i :: 0 <= i < |cars| ==> r[i] == cars[i].price
  {
    if cars == [] then [] else PricesOf(cars[..|cars| - 1]) + [cars[|cars| - 1].price]
  }

  /** The loop over the cart that adds up `totalBasePrice`. */
  method BaseTotal(cars: seq<Car>) returns (total: real)
    ensures total == Sum(PricesOf(cars))
  {
    total := 0.0;
    var i := 0;
    while i < |cars|
      invariant 0 <= i <= |cars|
      invariant total == Sum(PricesOf(cars[..i]))
    {
      assert cars[..i + 1][..i] == cars[..i];
      total := total + cars[i].price;
      i := i + 1;
    }
    assert cars[..|cars|] == cars;
  }

  /** The figures shown for a list of cars: their base total, tax, discount and final price. */
  method PriceCars(cars: seq<Car>) returns (q: Quote)
    ensures q == QuoteFor(Sum(PricesOf(cars)))
  {
    var base := BaseTotal(cars);
    var tax := base * TaxRate;
    var subtotal := base + tax;
    var finalTotal := DiscountedTotal(subtotal);
    q := Quote(base, tax, subtotal, subtotal - finalTotal, finalTotal);
  }

  /** Cars whose prices passed `validateCarInput` give a positive base total. */
  lemma PositivePricesPositiveBase(cars: seq<Car>)
    requires cars != []
    requires forall i :: 0 <= i < |cars| ==> cars[i].price > 0.0
    ensures Sum(PricesOf(cars)) > 0.0
  {
    SumPositive(PricesOf(cars));
  }

  /** The three columns of the sales ledger that split a cart-wide amount. */
  datatype Column = TaxColumn | DiscountColumn | FinalColumn

  function Allocated(s: Sale, c: Column): Amount
  {
    match c
    case TaxColumn => s.tax
    case DiscountColumn => s.discount
    case FinalColumn => s.finalPrice
  }

  function QuoteAmount(q: Quote, c: Column): real
  {
    match c
    case TaxColumn => q.tax
    case DiscountColumn => q.discount
    case FinalColumn => q.finalTotal
  }

  /** A column of the ledger added up in order. */
  function ColumnTotal(sales: seq<Sale>, c: Column): Amount
  {
    if sales == [] then Exact(0.0) else Plus(ColumnTotal(sales[..|sales| - 1], c), Allocated(sales[|sales| - 1], c))
  }

  /** A ledger column whose entries are exactly `parts` adds up to the sum of `parts`. */
  lemma {:induction false} ColumnTotalIsSum(sales: seq<Sale>, parts: seq<real>, c: Column)
    requires |sales| == |parts|
    requires forall i :: 0 <= i < |sales| ==> Allocated(sales[i], c) == Exact(parts[i])
    ensures ColumnTotal(sales, c) == Exact(Sum(parts))
  {
    if sales != [] {
      var n := |sales| - 1;
      var init, prefix := sales[..n], parts[..n];
      assert forall i :: 0 <= i < n ==> init[i] == sales[i] && prefix[i] == parts[i];
      ColumnTotalIsSum(init, prefix, c);
    }
  }

  lemma AllocatedSaleOf(car: Car, customer: Customer, q: Quote, c: Column)
    ensures Allocated(SaleOf(car, customer, q), c) == Share(QuoteAmount(q, c), car.price, q.base)
  {
  }

  /**
   * With a non-zero base total, the tax, discount and final amounts allocated
   * to the cars of a checkout add up exactly to the cart's tax, discount and
   * final total.
   */
  lemma {:induction false} AllocationsReconcile(cars: seq<Car>, customer: Customer, c: Column)
    requires Sum(PricesOf(cars)) != 0.0
    ensures var q := QuoteFor(Sum(PricesOf(cars)));
            ColumnTotal(SalesFor(cars, customer, q), c) == Exact(QuoteAmount(q, c))
  {
    var prices := PricesOf(cars);
    var q := QuoteFor(Sum(prices));
    var sales := SalesFor(cars, customer, q);
    var parts := Shares(QuoteAmount(q, c), prices, q.base);
    forall i | 0 <= i < |sales|
      ensures Allocated(sales[i], c) == Exact(parts[i])
    {
      AllocatedSaleOf(cars[i], customer, q, c);
    }
    ColumnTotalIsSum(sales, parts, c);
    SharesSumToAmount(QuoteAmount(q, c), prices);
  }

  /** With a zero base total (every price 0), each recorded amount is NaN. */
  lemma ZeroBaseRecordsNaN(cars: seq<Car>, customer: Customer, i: int)
    requires Sum(PricesOf(cars)) == 0.0 && 0 <= i < |cars|
    ensures var s := SalesFor(cars, customer, QuoteFor(0.0))[i];
            s.tax.NaN? && s.discount.NaN? && s.finalPrice.NaN? && s.basePrice == cars[i].price
  {
  }

  /** Whether the purchase screen could be opened. */
  datatype PurchaseOpen = NoCarsAvailable | NoCustomersAvailable | Opened

  /** Whether a cart button found a car selected. */
  datatype CartChange = NothingSelected | Changed

  /** How a press of the checkout button ended. */
  datatype CheckoutOutcome = EmptyCart | NoCustomerSelected | NotConfirmed | Completed

  /** The application's state: the dealership, the customers and the open purchase screen. */
  class Shop {
    var dealership: CarDealership
    var customers: seq<Customer>
    /** the purchase screen: the cart, the cars offered for it, the chosen customer */
    var cart: seq<Car>
    var offered: seq<Car>
    var selectedCustomer: Customer?
    /** what was written to the sales, cars and customers files */
    ghost var sales: seq<Sale>
    ghost var savedCars: seq<Car>
    ghost var savedCustomers: seq<Customer>

    /** The purchase screen is up to date: the offer excludes the cart, and no car is in the cart twice. */
    ghost predicate CartConsistent()
      reads this, dealership
    {
      offered == Without(dealership.cars, cart) && Distinct(cart)
    }

    /**
     * Start-up with what the files held: with no saved dealership a default one
     * is made (and the saved cars are not loaded); otherwise the saved cars are
     * appended to its car list, and not to its store inventory.
     */
    constructor Start(loaded: CarDealership?, loadedCars: seq<Car>, loadedCustomers: seq<Customer>)
      modifies loaded
      ensures loaded == null ==> fresh(dealership) && fresh(dealership.store)
      ensures loaded == null ==> dealership.cars == [] && dealership.store.inventory == []
      ensures loaded == null ==> dealership.store.storeType == DealershipType && dealership.id == 0
      ensures loaded == null ==> dealership.store.storeName == "Default Dealership"
      ensures loaded == null ==> dealership.store.storeLocation == "Default Location"
      ensures loaded != null ==> dealership == loaded && dealership.cars == old(loaded.cars) + loadedCars
      ensures loaded != null ==> dealership.id == old(loaded.id)
      ensures customers == loadedCustomers
      ensures cart == [] && offered == [] && selectedCustomer == null
      ensures sales == [] && savedCars == [] && savedCustomers == []
    {
      if loaded == null {
        dealership := new CarDealership.Default();
      } else {
        dealership := loaded;
        loaded.cars := loaded.cars + loadedCars;
      }
      customers := loadedCustomers;
      cart, offered, selectedCustomer := [], [], null;
      sales, savedCars, savedCustomers := [], [], [];
    }

    /** The create-store form: with both fields filled, a new, empty dealership replaces the current one. */
    method CreateStore(name: string, location: string) returns (r: Check)
      modifies this`dealership
      ensures r == Accepted <==> name != [] && location != []
      ensures r != Accepted ==> r == Rejected("Please fill in all fields!") && dealership == old(dealership)
      ensures r == Accepted ==> fresh(dealership) && fresh(dealership.store)
      ensures r == Accepted ==> dealership.store.storeType == DealershipType
      ensures r == Accepted ==> dealership.store.storeName == name && dealership.store.storeLocation == location
      ensures r == Accepted ==> dealership.cars == [] && dealership.store.inventory == []
    {
      if name == [] || location == [] {
        return Rejected("Please fill in all fields!");
      }
      dealership := new CarDealership(name, location);
      r := Accepted;
    }

    /**
     * The upload-inventory form: a car is created only when `ValidateCarInput`
     * accepts, so every car added here has a positive price.
     */
    method UploadCar(brand: string, model: string, price: string, parsedPrice: Option<real>)
      returns (r: Check, car: Car?)
      modifies this`savedCars, dealership`cars, dealership.store`inventory
      ensures r == ValidateCarInput(brand, model, price, parsedPrice)
      ensures r != Accepted ==> car == null
      ensures r != Accepted ==> dealership.cars == old(dealership.cars) && savedCars == old(savedCars)
      ensures r != Accepted ==> dealership.store.inventory == old(dealership.store.inventory)
      ensures r == Accepted ==> car != null && fresh(car) && car.id == 0
      ensures r == Accepted ==> car.brand == brand && car.model == model && car.price == parsedPrice.value > 0.0
      ensures r == Accepted ==> dealership.cars == old(dealership.cars) + [car] && savedCars == dealership.cars
      ensures r == Accepted ==> dealership.store.inventory == old(dealership.store.inventory) + [car]
      ensures Distinct(old(dealership.cars)) ==> Distinct(dealership.cars)
    {
      r := ValidateCarInput(brand, model, price, parsedPrice);
      car := null;
      if r == Accepted {
        car := new Car(model, brand, parsedPrice.value);
        dealership.AddCar(car);
        savedCars := dealership.cars;
      }
    }

    /** The add-customer form: a customer is created and saved only when `ValidateCustomerInput` accepts. */
    method RegisterCustomer(name: string, age: string, address: string, phone: string, email: string,
                            parsedAge: Option<int>, emailMatches: bool, phoneMatches: bool)
      returns (r: Check, customer: Customer?)
      modifies this`customers, this`savedCustomers
      ensures r == ValidateCustomerInput(name, age, address, phone, email, parsedAge, emailMatches, phoneMatches)
      ensures r != Accepted ==> customer == null && customers == old(customers) && savedCustomers == old(savedCustomers)
      ensures r == Accepted ==> customer != null && fresh(customer) && AgeInRange(customer.age)
      ensures r == Accepted ==> customer.name == name && customer.age == parsedAge.value && customer.email == email
      ensures r == Accepted ==> customer.address == address && customer.phone == phone && customer.id == 0
      ensures r == Accepted ==> customers == old(customers) + [customer] && savedCustomers == customers
    {
      r := ValidateCustomerInput(name, age, address, phone, email, parsedAge, emailMatches, phoneMatches);
      customer := null;
      if r == Accepted {
        customer := new Customer(name, parsedAge.value, address, phone, email);
        customers := customers + [customer];
        savedCustomers := customers;
      }
    }

    /** `purchaseItems`: refused with no cars or no customers; otherwise an empty cart offering every car. */
    method OpenPurchase() returns (r: PurchaseOpen)
      modifies this`cart, this`offered, this`selectedCustomer
      ensures r == NoCarsAvailable <==> dealership.cars == []
      ensures r == NoCustomersAvailable <==> dealership.cars != [] && customers == []
      ensures r != Opened ==> cart == old(cart) && offered == old(offered) && selectedCustomer == old(selectedCustomer)
      ensures r == Opened ==> cart == [] && selectedCustomer == null && offered == dealership.cars
      ensures r == Opened ==> CartConsistent()
    {
      if dealership.cars == [] {
        return NoCarsAvailable;
      }
      if customers == [] {
        return NoCustomersAvailable;
      }
      cart, selectedCustomer := [], null;
      UpdateAvailableCars();
      WithoutNoneExcluded(dealership.cars, cart);
      r := Opened;
    }

    /** `updateAvailableCars`: the dealership's cars in order, less those already in the cart. */
    method UpdateAvailableCars()
      modifies this`offered
      ensures offered == Without(dealership.cars, cart)
    {
      offered := Without(dealership.cars, cart);
    }

    /** Choosing a customer in the purchase screen. */
    method SelectCustomer(customer: Customer?)
      modifies this`selectedCustomer
      ensures selectedCustomer == customer
    {
      selectedCustomer := customer;
    }

    /**
     * The add-to-cart button: appends the selected car and refreshes the offer.
     * A car taken from an up-to-date offer is never already in the cart.
     */
    method AddToCart(selected: Car?) returns (r: CartChange)
      modifies this`cart, this`offered
      ensures r == NothingSelected <==> selected == null
      ensures selected == null ==> cart == old(cart) && offered == old(offered)
      ensures selected != null ==> cart == old(cart) + [selected] && offered == Without(dealership.cars, cart)
      ensures old(CartConsistent()) && (selected == null || selected in old(offered)) ==> CartConsistent()
    {
      if selected == null {
        return NothingSelected;
      }
      var car: Car := selected;
      ghost var fromOffer := car in offered && offered == Without(dealership.cars, cart);
      if fromOffer {
        WithoutMember(dealership.cars, cart, car);
        if Distinct(cart) {
          DistinctAppend(cart, car);
        }
      }
      cart := cart + [car];
      UpdateAvailableCars();
      r := Changed;
    }

    /** The remove-selected button: drops the selected car from the cart and refreshes the offer. */
    method RemoveFromCart(selected: Car?) returns (r: CartChange)
      modifies this`cart, this`offered
      ensures r == NothingSelected <==> selected == null
      ensures selected == null ==> cart == old(cart) && offered == old(offered)
      ensures selected != null ==> cart == RemoveFirst<Car>(old(cart), selected) && offered == Without(dealership.cars, cart)
      ensures Distinct(old(cart)) ==> Distinct(cart) && (selected != null ==> selected !in cart)
      ensures old(CartConsistent()) ==> CartConsistent()
    {
      if selected == null {
        return NothingSelected;
      }
      var car: Car := selected;
      ghost var noDuplicates := Distinct(cart);
      if noDuplicates {
        RemoveFirstKeepsDistinct(cart, car);
      }
      cart := RemoveFirst(cart, car);
      UpdateAvailableCars();
      r := Changed;
    }

    /**
     * `updateCartSummary`: no summary without a car in the cart and a customer;
     * otherwise the figures of the cart's quote.
     */
    method CartSummary() returns (q: Option<Quote>)
      ensures q.None? <==> cart == [] || selectedCustomer == null
      ensures q.Some? ==> q.value == QuoteFor(Sum(PricesOf(cart)))
      ensures q.Some? ==> q.value.discount + q.value.finalTotal == q.value.subtotal
    {
      if cart == [] || selectedCustomer == null {
        return None;
      }
      var figures := PriceCars(cart);
      QuoteFigures(figures.base);
      q := Some(figures);
    }

    /**
     * The loop of a confirmed checkout: for each cart car in turn, record its
     * sale, then remove it from the list `getCars()` returns, that is from the
     * dealership's car list alone.
     */
    method CommitCart(customer: Customer, q: Quote)
      modifies this`sales, dealership`cars
      ensures sales == old(sales) + old(SalesFor(cart, customer, q))
      ensures dealership.cars == RemoveEach(old(dealership.cars), cart)
    {
      ghost var recorded := SalesFor(cart, customer, q);
      var i := 0;
      while i < |cart|
        invariant 0 <= i <= |cart|
        invariant sales == old(sales) + recorded[..i]
        invariant dealership.cars == RemoveEach(old(dealership.cars), cart[..i])
      {
        var car := cart[i];
        assert recorded[..i + 1] == recorded[..i] + [SaleOf(car, customer, q)];
        assert cart[..i + 1][..i] == cart[..i];
        sales := sales + [SaleOf(car, customer, q)];
        dealership.cars := RemoveFirst(dealership.cars, car);
        i := i + 1;
      }
      assert recorded[..|cart|] == recorded;
      assert cart[..|cart|] == cart;
    }

    /**
     * A confirmed checkout: prices the cart, commits it and saves the
     * dealership's car list.
     */
    method ConfirmCheckout(customer: Customer)
      modifies this`sales, this`savedCars, dealership`cars
      ensures sales == old(sales + SalesFor(cart, customer, QuoteFor(Sum(PricesOf(cart)))))
      ensures dealership.cars == RemoveEach(old(dealership.cars), cart)
      ensures savedCars == dealership.cars
    {
      var q := PriceCars(cart);
      CommitCart(customer, q);
      savedCars := dealership.cars;
    }

    /**
     * The checkout button. It refuses an empty cart, then a missing customer,
     * then an unconfirmed dialog, changing nothing. A confirmed checkout
     * prices the cart as `CartSummary` does, records one sale per cart car in
     * cart order, removes each of those cars from the dealership's car list
     * (but not from the store inventory), and saves the car list.
     */
    method Checkout(confirmed: bool) returns (outcome: CheckoutOutcome)
      modifies this`sales, this`savedCars, dealership`cars
      ensures outcome == EmptyCart <==> cart == []
      ensures outcome == NoCustomerSelected <==> cart != [] && selectedCustomer == null
      ensures outcome == NotConfirmed <==> cart != [] && selectedCustomer != null && !confirmed
      ensures outcome != Completed ==> sales == old(sales) && savedCars == old(savedCars)
      ensures outcome != Completed ==> dealership.cars == old(dealership.cars)
      ensures dealership.store.inventory == old(dealership.store.inventory)
      ensures outcome == Completed ==> selectedCustomer != null
      ensures outcome == Completed ==>
        sales == old(sales + SalesFor(cart, selectedCustomer, QuoteFor(Sum(PricesOf(cart)))))
      ensures outcome == Completed ==> dealership.cars == RemoveEach(old(dealership.cars), cart)
      ensures outcome == Completed ==> savedCars == dealership.cars
    {
      if cart == [] {
        return EmptyCart;
      }
      if selectedCustomer == null {
        return NoCustomerSelected;
      }
      if !confirmed {
        return NotConfirmed;
      }
      ConfirmCheckout(selectedCustomer);
      outcome := Completed;
    }
  }
}
