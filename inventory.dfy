/**
 * The store and its one kind, the car dealership. `CarDealership` extends
 * `Store`; here a dealership holds its `Store` part as `store`, built by the
 * same arguments its constructors pass to `super`. The dealership keeps two
 * lists: its own `cars` and the store's `inventory`. `AddCar` appends to
 * both; code that changes the list `getCars()` returns changes `cars` alone.
 */
module Inventory {
  import opened Entities

  /** The store part of a dealership. `inventory` holds objects of any kind. */
  class Store {
    var storeType: string
    var storeName: string
    var storeLocation: string
    var inventory: seq<object>

    /** `Store(type, name, location)`: the three names as given, an empty inventory. */
    constructor (storeType: string, storeName: string, storeLocation: string)
      ensures this.storeType == storeType && this.storeName == storeName
      ensures this.storeLocation == storeLocation
      ensures inventory == []
    {
      this.storeType := storeType;
      this.storeName := storeName;
      this.storeLocation := storeLocation;
      inventory := [];
    }

    method SetStoreType(storeType: string)
      modifies this`storeType
      ensures this.storeType == storeType
    {
      this.storeType := storeType;
    }

    method SetStoreName(storeName: string)
      modifies this`storeName
      ensures this.storeName == storeName
    {
      this.storeName := storeName;
    }

    method SetStoreLocation(storeLocation: string)
      modifies this`storeLocation
      ensures this.storeLocation == storeLocation
    {
      this.storeLocation := storeLocation;
    }

    /** `addToInventory`: one more item, at the end; nothing else changes. */
    method AddToInventory(item: object)
      modifies this`inventory
      ensures inventory == old(inventory) + [item]
    {
      inventory := inventory + [item];
    }
  }

  const DealershipType: string := "Car Dealership"

  class CarDealership {
    var id: int
    var cars: seq<Car>
    const store: Store

    /** `CarDealership()`: the default name and location, no cars, nothing in the inventory. */
    constructor Default()
      ensures fresh(store)
      ensures store.storeType == DealershipType
      ensures store.storeName == "Default Dealership" && store.storeLocation == "Default Location"
      ensures cars == [] && store.inventory == [] && id == 0
    {
      store := new Store(DealershipType, "Default Dealership", "Default Location");
      cars := [];
      id := 0; // Java's default for an int field the constructor does not set
    }

    /** `CarDealership(name, location)`: the given name and location, no cars, nothing in the inventory. */
    constructor (name: string, location: string)
      ensures fresh(store)
      ensures store.storeType == DealershipType
      ensures store.storeName == name && store.storeLocation == location
      ensures cars == [] && store.inventory == [] && id == 0
    {
      store := new Store(DealershipType, name, location);
      cars := [];
      id := 0; // Java's default for an int field the constructor does not set
    }

    /**
     * `addCar`: the car becomes the last element of both `cars` and the store's
     * inventory. Any car is accepted, even one already listed or without a
     * positive price.
     */
    method AddCar(car: Car)
      modifies this`cars, store`inventory
      ensures cars == old(cars) + [car]
      ensures store.inventory == old(store.inventory) + [car]
    {
      cars := cars + [car];
      store.AddToInventory(car);
    }

    method SetId(id: int)
      modifies this`id
      ensures this.id == id
    {
      this.id := id;
    }
  }
}
