# Car dealership checkout, modelled in Dafny

This project models the business core of a JavaFX car dealership application:

- **Pricing.** The order total is the sum of the car prices plus 7% sales tax. A tiered discount is then chosen on the post-tax subtotal:
  - 20% from 100000;
  - 10% from 50000;
  - 5% from 25000;
  - none below 25000.
- **Checkout.** A confirmed checkout of the purchase screen's cart records one sale per car. Each sale carries that car's proportional part of the tax, the discount and the final total. The car is then removed from the dealership's car list.
- **Purchase screen.** This covers the cart, the list of cars still on offer, and the add and remove buttons.
- **Forms.** The forms that create a store, add a car or add a customer, with their input checks.
- **Entities.** The mutable entities `Car`, `Customer`, `Store` and `CarDealership`.

Modules:

- `Pricing`: the tiered discount, the quote of a cart, and the proportional split of an amount (pure functions and lemmas).
- `Lists`: the two Java list operations the code relies on, `List.remove(Object)` (first occurrence, by reference) and the stream filter of `updateAvailableCars`, with their properties.
- `Entities`: `Car` and `Customer` as classes. Identity is by reference, as in the Java code, which has no `equals` override.
- `Inventory`: `Store` and `CarDealership`. `CarDealership extends Store` is modelled by composition: a dealership holds its store part in `store`. The dealership keeps two lists:
  - `cars`, which checkout shrinks through the live list `getCars()` returns;
  - `store.inventory`, which only `addCar` touches.
- `Validation`: the car and customer form checks, as functions returning the exception message.
- `Checkout`: the application state (`Shop`) and its handlers. These are start-up, the three forms, opening the purchase screen, the cart buttons, the order summary and the checkout.

Modelling decisions:

- **Money is `real`.** The model computes exactly where the program rounds each step to an IEEE double.
- **The one IEEE value kept is NaN.** It is the result when every cart price is 0 (`0.0 / 0.0`). A sale's tax, discount and final amounts are `Amount = Exact(real) | NaN`, so the zero-base checkout is modelled rather than excluded.
- **Files are ghost logs.** `DataManager` writes sales, cars and customers to files. The model keeps what was written as ghost fields of `Shop`: `sales`, `savedCars` and `savedCustomers`.
- **Outside results are parameters.** The confirmation dialog, number parsing and the two regular-expression checks are passed in as their results.

## Model

| member | source | states |
|---|---|---|
| Pricing.DiscountedTotal | src/cardealership/Main.java:303-312 | the subtotal times its tier's factor; for a non-negative subtotal the result lies between 80% and 100% of it; it is unchanged exactly when the subtotal is below 25000 |
| Pricing.DiscountDescription | src/cardealership/Main.java:701-709 | the message of the same tier `DiscountedTotal` uses; "No discount applied" exactly when `DiscountedTotal` leaves the subtotal unchanged |
| Pricing.ExactlyOneTier | src/cardealership/Main.java:303-312 | the tiers partition the reals: inclusive lower bounds 100000, 50000, 25000, tested highest first |
| Pricing.DescriptionIdentifiesTier | src/cardealership/Main.java:701-709 | two subtotals get the same description if and only if they fall in the same tier |
| Pricing.DiscountBounds | src/cardealership/Main.java:339-342 | for a non-negative subtotal, `discount = subtotal - finalTotal` lies in [0, 0.2 * subtotal] |
| Pricing.DiscountMonotone | src/cardealership/Main.java:339-342 | the discount amount never decreases as the subtotal grows, across tier boundaries too |
| Pricing.DiscountedTotalNotMonotone | src/cardealership/Main.java:303-312 | the discounted total itself is not monotone (99999 costs more than 100000) |
| Pricing.QuoteFigures | src/cardealership/Main.java:338-342 | a quote's subtotal is 107% of the base, discount and final total add up to the subtotal, the final total is the subtotal times its tier factor, and for a non-negative base the discount is between 0 and 20% of the subtotal |
| Pricing.QuoteExamples | src/cardealership/Main.java:338-342 | a 20000 cart gives tax 1400, subtotal 21400, no discount, total 21400; a 110000 cart gives tax 7700, subtotal 117700, discount 23540, total 94160 |
| Pricing.ProportionsSumToOne | src/cardealership/Main.java:461-463 | with a non-zero base total, the per-car proportions `price / base` add up to 1 |
| Pricing.SharesSumToAmount | src/cardealership/Main.java:461-468 | with a non-zero base total, the per-car parts `amount * (price / base)` add up to exactly `amount` |
| Pricing.SharesExample | src/cardealership/Main.java:461-468 | the 94160 total of a 60000 car and a 50000 car splits as 51360 and 42800 |
| Lists.WithoutMember | src/cardealership/Main.java:314-319 | the filter keeps exactly the elements of the list that are not in the excluded list |
| Lists.RemoveFirst | src/cardealership/Main.java:469 | `List.remove(Object)` leaves a list without the element unchanged and otherwise shortens it by one |
| Lists.RemoveFirstAt | src/cardealership/Main.java:420 | `remove(x)` drops the first occurrence of `x` and keeps the elements before and after it in order (on `[x, a, x]` it gives `[a, x]`) |
| Lists.RemoveFirstMultiset | src/cardealership/Main.java:469 | `remove` takes away one occurrence of the element, if any, and keeps every other element |
| Lists.RemoveFirstDistinct | src/cardealership/Main.java:417-424 | on a list without duplicates, `remove(x)` is the filter that drops `x` |
| Lists.RemoveFirstKeepsDistinct | src/cardealership/Main.java:417-424 | after `remove(x)` on a list without duplicates, `x` is gone and no element is duplicated |
| Lists.RemoveEachKeepsOthers | src/cardealership/Main.java:461-470 | removing the cart's cars one by one keeps every other car, with its multiplicity and in its original relative order, whatever duplicates the lists hold |
| Lists.RemoveEachDistinct | src/cardealership/Main.java:461-470 | on a car list without duplicates, removing the cart's cars one by one equals filtering the cart's cars out |
| Lists.RemoveEachMembers | src/cardealership/Main.java:461-470 | on a car list without duplicates, a car is left after the removals if and only if it was listed and is not in the cart |
| Entities.Car.constructor | src/cardealership/Car.java:11-15 | model, brand and price are stored in that argument order; the id is 0 |
| Entities.Car.SetModel | src/cardealership/Car.java:19 | sets the model and changes no other field |
| Entities.Car.SetBrand | src/cardealership/Car.java:21 | sets the brand and changes no other field |
| Entities.Car.SetPrice | src/cardealership/Car.java:23 | sets the price and changes no other field |
| Entities.Car.SetId | src/cardealership/Car.java:25 | sets the id and changes no other field |
| Entities.EqualFieldsDistinctCars | src/cardealership/Car.java:3-31 | two cars built from the same arguments are different objects, and `remove` on a list of both drops only the one it is given |
| Entities.Customer.constructor | src/cardealership/Customer.java:13-19 | name, age, address, phone and email are stored as given, with no check on the age; the id is 0 |
| Entities.Customer.SetName | src/cardealership/Customer.java:23 | sets the name and changes no other field |
| Entities.Customer.SetAge | src/cardealership/Customer.java:25 | sets the age and changes no other field |
| Entities.Customer.SetAddress | src/cardealership/Customer.java:27 | sets the address and changes no other field |
| Entities.Customer.SetPhone | src/cardealership/Customer.java:29 | sets the phone number and changes no other field |
| Entities.Customer.SetEmail | src/cardealership/Customer.java:31 | sets the e-mail address and changes no other field |
| Entities.Customer.SetId | src/cardealership/Customer.java:33 | sets the id and changes no other field |
| Inventory.Store.constructor | src/cardealership/Store.java:16-21 | type, name and location as given, and an empty inventory |
| Inventory.Store.SetStoreType | src/cardealership/Store.java:25 | sets the type and changes no other field |
| Inventory.Store.SetStoreName | src/cardealership/Store.java:27 | sets the name and changes no other field |
| Inventory.Store.SetStoreLocation | src/cardealership/Store.java:29 | sets the location and changes no other field |
| Inventory.Store.AddToInventory | src/cardealership/Store.java:32 | the item becomes the last inventory element; earlier elements and other fields are unchanged |
| Inventory.CarDealership.Default | src/cardealership/CarDealership.java:10-13 | store type "Car Dealership", name "Default Dealership", location "Default Location", no cars, an empty inventory |
| Inventory.CarDealership.constructor | src/cardealership/CarDealership.java:15-18 | store type "Car Dealership", the given name and location, no cars, an empty inventory |
| Inventory.CarDealership.AddCar | src/cardealership/CarDealership.java:21-24 | the car becomes the last element of both the car list and the store inventory, with no check on price or duplicates |
| Inventory.CarDealership.SetId | src/cardealership/CarDealership.java:27 | sets the id and changes no other field |
| Validation.ValidateCarInput | src/cardealership/Main.java:664-677 | accepted if and only if brand, model and price are present and the price parses to a positive number; any empty text gives "All fields are required!"; "Price must be greater than zero!" exactly for a parsed price of 0 or less |
| Validation.ValidateCustomerInput | src/cardealership/Main.java:641-662 | accepted if and only if all five texts are present, the age parses into 18..120 and both patterns match; the age message exactly when a parsed age is outside 18..120 |
| Validation.AgeBoundsInclusive | src/cardealership/Main.java:648-650 | 18 and 120 are accepted ages, 17 and 121 are not |
| Checkout.Share | src/cardealership/Main.java:463-468 | a car's recorded part of a cart-wide amount is NaN exactly when the base total is 0 |
| Checkout.SalesFor | src/cardealership/Main.java:461-468 | one sale per cart car, in cart order, each with the car's proportional tax, discount and final amounts |
| Checkout.BaseTotal | src/cardealership/Main.java:449-452 | the loop adds up the prices of the cars in order |
| Checkout.PriceCars | src/cardealership/Main.java:449-458 | the checkout computes the quote of the cart's base total |
| Checkout.PositivePricesPositiveBase | src/cardealership/Main.java:449-452 | a non-empty cart of cars with positive prices has a positive base total |
| Checkout.ColumnTotalIsSum | src/cardealership/Main.java:461-468 | a ledger column of exact entries adds up, as the program's sales file would be totalled, to the sum of those entries |
| Checkout.AllocationsReconcile | src/cardealership/Main.java:461-468 | with a non-zero base total, the tax, discount and final amounts recorded for the cart's cars add up to exactly the cart's tax, discount and final total |
| Checkout.ZeroBaseRecordsNaN | src/cardealership/Main.java:461-468 | with a zero base total every recorded tax, discount and final amount is NaN, and the base price is still the car's price |
| Checkout.Shop.Start | src/cardealership/Main.java:28-36 | with no saved dealership a fresh default one is made (type "Car Dealership", name "Default Dealership", location "Default Location", id 0, no cars, empty inventory) and no saved cars are loaded; otherwise the saved cars are appended to its car list only; customers are the saved ones |
| Checkout.Shop.CreateStore | src/cardealership/Main.java:145-155 | with either field empty nothing changes and the message is "Please fill in all fields!"; otherwise a new dealership with the given name and location and no cars replaces the current one |
| Checkout.Shop.UploadCar | src/cardealership/Main.java:274-289 | the car form's verdict is `ValidateCarInput`; on acceptance a new car with those fields is appended to the car list and the inventory and the car list is saved; on rejection nothing changes; a car list without duplicates stays so |
| Checkout.Shop.RegisterCustomer | src/cardealership/Main.java:217-235 | the customer form's verdict is `ValidateCustomerInput`; on acceptance a fresh customer with the given name, parsed age (within 18..120), address, phone and e-mail and id 0 is appended and the list saved; on rejection nothing changes |
| Checkout.Shop.OpenPurchase | src/cardealership/Main.java:358-390 | refused with no cars, then with no customers, changing nothing; otherwise an empty cart, no customer, and every dealership car on offer |
| Checkout.Shop.UpdateAvailableCars | src/cardealership/Main.java:314-319 | the offer is the dealership's cars in order, less those in the cart |
| Checkout.Shop.SelectCustomer | src/cardealership/Main.java:426 | the chosen customer becomes the selected one |
| Checkout.Shop.AddToCart | src/cardealership/Main.java:403-412 | nothing selected changes nothing; otherwise the car is appended and the offer refreshed; a car taken from an up-to-date offer keeps the cart free of duplicates |
| Checkout.Shop.RemoveFromCart | src/cardealership/Main.java:417-424 | nothing selected changes nothing; otherwise the first occurrence of the car leaves the cart and the offer is refreshed; a duplicate-free cart stays so and no longer holds the car; an up-to-date screen stays up to date |
| Checkout.Shop.CartSummary | src/cardealership/Main.java:321-342 | no summary for an empty cart or no customer; otherwise the quote of the cart's base total, whose discount and final total add up to the subtotal |
| Checkout.Shop.CommitCart | src/cardealership/Main.java:461-470 | the loop records one sale per cart car in cart order, priced as the cart stood, and removes each cart car from the dealership's car list one by one |
| Checkout.Shop.ConfirmCheckout | src/cardealership/Main.java:448-472 | a confirmed checkout records the cart's sales at the quote the summary shows, removes the cart's cars from the car list and saves the list |
| Checkout.Shop.Checkout | src/cardealership/Main.java:431-476 | an empty cart, then no customer, then an unconfirmed dialog changes nothing; a completed checkout records the sales, removes the cars from the car list but not from the store inventory, and saves the car list |

## Left out

- JavaFX screens, layout, alerts and dialogs: presentation only. The confirmation dialog is the `confirmed` parameter of `Checkout`, and a selection is a parameter of the cart buttons.
- `DataManager` (files): loading is the parameters of `Shop.Start`. Saving sales, cars and customers is the ghost logs of `Shop`. `saveDealership` after creating a store is not logged. The CSV format and `%.2f` printing are not modelled.
- IEEE doubles: rounding of `0.07`, `0.8`, `0.9`, `0.95` and of every sum and product is not modelled. Apart from the zero-base NaN, no NaN or infinity arises in the model. So a price text such as "NaN" or "Infinity", which `Double.parseDouble` accepts and `validateCarInput` lets through, is not representable.
- Number parsing and pattern matching: `Double.parseDouble` and `Integer.parseInt` are `Option` parameters, and the e-mail and phone regular expressions are boolean parameters.
- The no-argument constructors `Car()`, `Customer()` and `Store()`: they leave the text fields null, and the modelled code never calls them.
- Getters: each returns its field. `getCars()` and `getInventory()` return the live list, which is modelled by assigning the field directly (`Checkout` updates `dealership.cars`).
- `displayInventory`, the `toString` methods, the video testimony screen and the customer search table: output or I/O only.
- The cart after a completed checkout: the program leaves the purchase screen, so the model keeps the old cart and offer, which are no longer shown.
- `Car.id`, `Customer.id` and `Customer.age` are unbounded integers rather than 32-bit `int`s. No arithmetic is done on them.
- Checkout.Shop.AddToCart: its no-duplicates guarantee is stated only for a car taken from an up-to-date offer. The combo box's value after the offer is refreshed is JavaFX behaviour and is not modelled, so an unchecked selection is allowed to be any car.
