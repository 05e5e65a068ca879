/**
 * The two records of the dealership, `Car` and `Customer`: mutable objects
 * with a setter per field and no `equals` override, so two of them are the
 * same only when they are the same reference.
 */
module Entities {
  import opened Lists

  /** A car on offer. `id` is a Java `int` that only `SetId` ever writes. */
  class Car {
    var id: int
    var model: string
    var brand: string
    var price: real

    /** `Car(model, brand, price)`: model first, brand second; the id stays 0. */
    constructor (model: string, brand: string, price: real)
      ensures this.model == model && this.brand == brand && this.price == price
      ensures id == 0
    {
      this.model := model;
      this.brand := brand;
      this.price := price;
      id := 0; // Java's default for an int field the constructor does not set
    }

    method SetModel(model: string)
      modifies this`model
      ensures this.model == model
    {
      this.model := model;
    }

    method SetBrand(brand: string)
      modifies this`brand
      ensures this.brand == brand
    {
      this.brand := brand;
    }

    method SetPrice(price: real)
      modifies this`price
      ensures this.price == price
    {
      this.price := price;
    }

    method SetId(id: int)
      modifies this`id
      ensures this.id == id
    {
      this.id := id;
    }
  }

  /**
   * Two cars built from the same arguments are different cars: a list of both
   * loses only the one that `remove` is given.
   */
  method EqualFieldsDistinctCars(model: string, brand: string, price: real) returns (a: Car, b: Car)
    ensures a != b
    ensures a.model == b.model == model && a.brand == b.brand == brand && a.price == b.price == price
    ensures RemoveFirst([a, b], b) == [a] && RemoveFirst([a, b], a) == [b]
  {
    a := new Car(model, brand, price);
    b := new Car(model, brand, price);
    assert [a, b][1..] == [b];
  }

  /** A registered customer. `age` is whatever the caller passes: nothing here checks it. */
  class Customer {
    var id: int
    var name: string
    var age: int
    var address: string
    var phone: string
    var email: string

    /** `Customer(name, age, address, phone, email)`, stored as given; the id stays 0. */
    constructor (name: string, age: int, address: string, phone: string, email: string)
      ensures this.name == name && this.age == age && this.address == address
      ensures this.phone == phone && this.email == email
      ensures id == 0
    {
      this.name := name;
      this.age := age;
      this.address := address;
      this.phone := phone;
      this.email := email;
      id := 0; // Java's default for an int field the constructor does not set
    }

    method SetName(name: string)
      modifies this`name
      ensures this.name == name
    {
      this.name := name;
    }

    method SetAge(age: int)
      modifies this`age
      ensures this.age == age
    {
      this.age := age;
    }

    method SetAddress(address: string)
      modifies this`address
      ensures this.address == address
    {
      this.address := address;
    }

    method SetPhone(phone: string)
      modifies this`phone
      ensures this.phone == phone
    {
      this.phone := phone;
    }

    method SetEmail(email: string)
      modifies this`email
      ensures this.email == email
    {
      this.email := email;
    }

    method SetId(id: int)
      modifies this`id
      ensures this.id == id
    {
      this.id := id;
    }
  }
}
