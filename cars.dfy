/** The car table: the `Car` and `NewCar` records, the in-memory
    `CarRepository` that rejects a second car with an id already stored,
    and the `addCar` mutation built on top of it. */
module Cars {
  import opened Wrappers
  import opened LicensePlates

  /** A `java.util.UUID`: its two 64-bit halves, compared for equality only. */
  datatype CarId = CarId(mostSigBits: bv64, leastSigBits: bv64)

  datatype Car = Car(id: CarId, licensePlate: LicensePlate, brand: string, model: string, year: string)

  /** The mutation's input: a car without its plate. */
  datatype NewCar = NewCar(id: CarId, brand: string, model: string, year: string)

  /** The only failure of `add`: a car with this id is already stored. */
  datatype AddError = DuplicateId(id: CarId)

  /** The store's invariant: no two stored cars share an id. */
  predicate IdsDistinct(cars: seq<Car>) {
    forall i, j :: 0 <= i < j < |cars| ==> cars[i].id != cars[j].id
  }

  /** `firstOrNull { it.id == id }`: the first car in stored order with the
      given id, or nothing when no stored car has it. */
  function FirstWithId(cars: seq<Car>, id: CarId): (r: Option<Car>)
    ensures r.None? <==> forall k :: 0 <= k < |cars| ==> cars[k].id != id
    ensures r.Some? ==> r.value.id == id
    ensures r.Some? ==>
              exists k :: 0 <= k < |cars| && cars[k] == r.value && forall j :: 0 <= j < k ==> cars[j].id != id
  {
    if cars == [] then None
    else if cars[0].id == id then Some(cars[0])
    else
      var rest := FirstWithId(cars[1..], id);
      assert forall k :: 1 <= k < |cars| ==> cars[k] == cars[1..][k - 1];
      rest
  }

  /** `filter { it.brand == brand }`: the stored cars of that brand, in stored order. */
  function WithBrand(cars: seq<Car>, brand: string): (r: seq<Car>)
    ensures |r| <= |cars|
    ensures forall c :: c in r <==> c in cars && c.brand == brand
  {
    if cars == [] then []
    else
      assert cars == [cars[0]] + cars[1..];
      (if cars[0].brand == brand then [cars[0]] else []) + WithBrand(cars[1..], brand)
  }

  /** Filtering distributes over concatenation, so the cars of a brand keep
      their stored order. */
  lemma {:induction false} WithBrandAppend(a: seq<Car>, b: seq<Car>, brand: string)
    ensures WithBrand(a + b, brand) == WithBrand(a, brand) + WithBrand(b, brand)
  {
    if a == [] {
      assert a + b == b;
    } else {
      assert (a + b)[0] == a[0] && (a + b)[1..] == a[1..] + b;
      WithBrandAppend(a[1..], b, brand);
    }
  }

  /** Appending a car leaves every earlier lookup as it was, and makes a
      lookup of a new id find that car. */
  lemma {:induction false} FirstWithIdAppend(cars: seq<Car>, c: Car, id: CarId)
    ensures FirstWithId(cars + [c], id) ==
      if FirstWithId(cars, id).Some? then FirstWithId(cars, id)
      else if c.id == id then Some(c) else None
  {
    if cars != [] {
      assert (cars + [c])[1..] == cars[1..] + [c];
      FirstWithIdAppend(cars[1..], c, id);
    }
  }

  /** `add`'s success path keeps ids distinct and makes the new car findable. */
  lemma AppendFreshKeepsDistinct(cars: seq<Car>, c: Car)
    requires IdsDistinct(cars) && FirstWithId(cars, c.id).None?
    ensures IdsDistinct(cars + [c])
    ensures FirstWithId(cars + [c], c.id) == Some(c)
  {
    FirstWithIdAppend(cars, c, c.id);
  }

  /** Three cars with pairwise different ids satisfy the store's invariant. */
  lemma SeedIdsDistinct(seed: seq<Car>)
    requires |seed| == 3
    requires seed[0].id != seed[1].id && seed[0].id != seed[2].id && seed[1].id != seed[2].id
    ensures IdsDistinct(seed)
  {
  }

  /** The in-memory car table. `cars` is the mutable list the source keeps
      in a private field; `Valid` is the uniqueness of ids that `add` guards. */
  class CarRepository {
    var cars: seq<Car>

    ghost predicate Valid()
      reads this
    {
      IdsDistinct(cars)
    }

    /** Seeds the table with the three demo cars, each with a generated plate.
        The random UUIDs of the seed become parameters, which must differ. */
    constructor (id1: CarId, id2: CarId, id3: CarId, d1: PlateDraws, d2: PlateDraws, d3: PlateDraws)
      requires id1 != id2 && id1 != id3 && id2 != id3
      requires ValidDraws(d1) && ValidDraws(d2) && ValidDraws(d3)
      ensures Valid()
      ensures cars == [Car(id1, Generate(d1), "Porsche", "911", "1969"),
                       Car(id2, Generate(d2), "Volvo", "V60", "2019"),
                       Car(id3, Generate(d3), "Volvo", "142", "1971")]
      ensures forall c :: c in cars ==> IsSwedishPlate(c.licensePlate.value)
    {
      var porsche := Car(id1, Generate(d1), "Porsche", "911", "1969");
      var v60 := Car(id2, Generate(d2), "Volvo", "V60", "2019");
      var amazon := Car(id3, Generate(d3), "Volvo", "142", "1971");
      assert IsSwedishPlate(porsche.licensePlate.value) && IsSwedishPlate(v60.licensePlate.value) &&
             IsSwedishPlate(amazon.licensePlate.value);
      SeedIdsDistinct([porsche, v60, amazon]);
      cars := [porsche, v60, amazon];
    }

    /** `car(id)`: nothing exactly when no stored car has the id; otherwise a
        stored car with that id, which in a valid store is the only one. */
    function CarById(id: CarId): (r: Option<Car>)
      reads this
      ensures r.None? <==> forall c :: c in cars ==> c.id != id
      ensures r.Some? ==> r.value in cars && r.value.id == id
      ensures Valid() && r.Some? ==> forall c :: c in cars && c.id == id ==> c == r.value
    {
      FirstWithId(cars, id)
    }

    /** `findCar(brand)`: exactly the stored cars of that brand. The order is
        the stored order: `WithBrand` keeps a single car exactly when it has
        the brand, and `WithBrandAppend` shows it distributes over
        concatenation, which together determine `filter`. */
    function FindCar(brand: string): (r: seq<Car>)
      reads this
      ensures forall c :: c in r <==> c in cars && c.brand == brand
    {
      WithBrand(cars, brand)
    }

    /** `all()`: a copy of the stored list. A sequence is a value, so later
        calls of `Add` cannot change a list already returned. */
    function All(): (r: seq<Car>)
      reads this
      ensures r == cars
    {
      cars
    }

    /** `add(car)`: fails, leaving the table unchanged, when a car with that id
        is already stored; otherwise appends the car. */
    method Add(car: Car) returns (result: Outcome<AddError>)
      requires Valid()
      modifies this
      ensures Valid()
      ensures result.Fail? <==> exists c :: c in old(cars) && c.id == car.id
      ensures result.Fail? ==> result.error == DuplicateId(car.id) && cars == old(cars)
      ensures result.Pass? ==> cars == old(cars) + [car] && CarById(car.id) == Some(car)
      ensures result.Pass? ==> forall id :: id != car.id ==> CarById(id) == old(CarById(id))
      ensures result.Pass? ==>
                forall brand :: FindCar(brand) == old(FindCar(brand)) + if car.brand == brand then [car] else []
    {
      if FirstWithId(cars, car.id).Some? {
        return Fail(DuplicateId(car.id));
      }
      AppendFreshKeepsDistinct(cars, car);
      forall id | id != car.id
        ensures FirstWithId(cars + [car], id) == FirstWithId(cars, id)
      {
        FirstWithIdAppend(cars, car, id);
      }
      forall brand
        ensures WithBrand(cars + [car], brand) ==
          WithBrand(cars, brand) + if car.brand == brand then [car] else []
      {
        WithBrandAppend(cars, [car], brand);
      }
      cars := cars + [car];
      result := Pass;
    }
  }

  /** The `addCar` mutation: builds a car from the input and a freshly
      generated plate, stores it and returns it. */
  class CarMutation {
    const carRepository: CarRepository

    constructor (carRepository: CarRepository)
      ensures this.carRepository == carRepository
    {
      this.carRepository := carRepository;
    }

    method AddCar(newCar: NewCar, draws: PlateDraws) returns (result: Result<Car, AddError>)
      requires carRepository.Valid() && ValidDraws(draws)
      modifies carRepository
      ensures carRepository.Valid()
      ensures result.Failure? <==> exists c :: c in old(carRepository.cars) && c.id == newCar.id
      ensures result.Failure? ==> result.error == DuplicateId(newCar.id) && carRepository.cars == old(carRepository.cars)
      ensures result.Success? ==>
        var car := result.value;
        car.id == newCar.id && car.brand == newCar.brand && car.model == newCar.model && car.year == newCar.year &&
        car.licensePlate == Generate(draws) && IsSwedishPlate(car.licensePlate.value) &&
        carRepository.cars == old(carRepository.cars) + [car]
      ensures (forall c :: c in old(carRepository.cars) ==> IsSwedishPlate(c.licensePlate.value)) ==>
        forall c :: c in carRepository.cars ==> IsSwedishPlate(c.licensePlate.value)
    {
      var car := Car(newCar.id, Generate(draws), newCar.brand, newCar.model, newCar.year);
      var outcome := carRepository.Add(car);
      if outcome.Fail? {
        return Failure(outcome.error);
      }
      result := Success(car);
    }
  }
}
