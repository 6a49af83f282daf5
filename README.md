# Car repository and Swedish licence plate generator

A Dafny model of the original logic of a small GraphQL demo server written in
Kotlin. Two components are modelled:

- **`SwedishLicensePlateGenerator`** (module `LicensePlates`, `license_plates.dfy`):
  builds a plate in the new Swedish format, three letters from
  `ABCDEFGHIJKLMNOPQRSTUVWXYZÅÄÖ`, a space, two digits and one letter from
  `ABCDEFGHJKLMNPRSTUWXYZ`. The random number stream of each `randomize`
  call is replaced by a caller-supplied sequence of indices (`PlateDraws`),
  so `randomize`, `firstPart`, `secondPart` and `generate` are pure functions.
  The format rule is stated separately (`IsSwedishPlate`), by character
  classes written as code-point ranges rather than by the alphabet strings,
  and proved in both directions: every generated plate obeys it, and every
  string obeying it is generated by some draws. The number of characters
  `randomize` is asked for is the number of draws it is given.
- **`CarRepository`** and **`CarMutation.addCar`** (module `Cars`, `cars.dfy`):
  the in-memory car table is a class whose `cars` field (a `seq<Car>`) is the
  mutable list of the source; `Add` reassigns it. Its invariant is that stored
  ids are pairwise distinct. The lookups `car`, `findCar` and `all` are
  functions over the field, specified through the sequence functions
  `FirstWithId` and `WithBrand`, about which the lemmas are proved.
  The `require` failure of `add` becomes `Outcome.Fail(DuplicateId(id))`, and
  `addCar` returns `Result.Failure` where the source lets the exception escape.

`wrappers.dfy` holds the `Option`, `Result` and `Outcome` types.

The uniqueness key of `add` is the car's id (`GraphqlKotlinSpringServerApplication.kt:235`), and `year` is a
plain string (`GraphqlKotlinSpringServerApplication.kt:62`).

## Model

| member | source | states |
|---|---|---|
| LicensePlates.Randomize | src/main/kotlin/com/example/graphqlkotlinspringserver/GraphqlKotlinSpringServerApplication.kt:209-213 | one character per draw, the k-th being the source character at the k-th draw index |
| LicensePlates.RandomizeReaches | src/main/kotlin/com/example/graphqlkotlinspringserver/GraphqlKotlinSpringServerApplication.kt:209-213 | every string over the source alphabet is produced by some valid draws |
| LicensePlates.FirstCharacterIsSwedishLetter | src/main/kotlin/com/example/graphqlkotlinspringserver/GraphqlKotlinSpringServerApplication.kt:193 | every character of the first alphabet is a Swedish letter |
| LicensePlates.SwedishLetterIndex | src/main/kotlin/com/example/graphqlkotlinspringserver/GraphqlKotlinSpringServerApplication.kt:193 | every Swedish letter stands in the first alphabet, at the returned index |
| LicensePlates.DigitIsDigit | src/main/kotlin/com/example/graphqlkotlinspringserver/GraphqlKotlinSpringServerApplication.kt:195 | every character of the digit alphabet is a decimal digit |
| LicensePlates.DigitIndex | src/main/kotlin/com/example/graphqlkotlinspringserver/GraphqlKotlinSpringServerApplication.kt:195 | every decimal digit stands in the digit alphabet, at the returned index |
| LicensePlates.LastCharacterIsUnambiguous | src/main/kotlin/com/example/graphqlkotlinspringserver/GraphqlKotlinSpringServerApplication.kt:194 | every character of the last alphabet is a capital A-Z other than I, O, Q and V |
| LicensePlates.UnambiguousLetterIndex | src/main/kotlin/com/example/graphqlkotlinspringserver/GraphqlKotlinSpringServerApplication.kt:194 | every capital A-Z other than I, O, Q and V stands in the last alphabet, at the returned index |
| LicensePlates.FirstPart | src/main/kotlin/com/example/graphqlkotlinspringserver/GraphqlKotlinSpringServerApplication.kt:201-203 | three characters, each a Swedish letter (A-Z, Å, Ä, Ö) |
| LicensePlates.SecondPart | src/main/kotlin/com/example/graphqlkotlinspringserver/GraphqlKotlinSpringServerApplication.kt:205-207 | three characters: two decimal digits, then a capital A-Z other than I, O, Q and V |
| LicensePlates.FirstPartReaches | src/main/kotlin/com/example/graphqlkotlinspringserver/GraphqlKotlinSpringServerApplication.kt:201-203 | any three Swedish letters are the first part under some valid draws |
| LicensePlates.SecondPartReaches | src/main/kotlin/com/example/graphqlkotlinspringserver/GraphqlKotlinSpringServerApplication.kt:205-207 | any two digits followed by an unambiguous letter are the second part under some valid draws |
| LicensePlates.Generate | src/main/kotlin/com/example/graphqlkotlinspringserver/GraphqlKotlinSpringServerApplication.kt:193-199 | every generated plate obeys the format rule: seven characters, Swedish letters at 0-2, a space at 3, digits at 4-5 and at 6 a capital A-Z other than I, O, Q and V (so never I, O, Q, V, Å, Ä or Ö) |
| LicensePlates.GenerateReachesEveryPlate | src/main/kotlin/com/example/graphqlkotlinspringserver/GraphqlKotlinSpringServerApplication.kt:193-213 | every string obeying the format rule is the plate of some valid draws (converse of Generate's contract) |
| Cars.FirstWithId | src/main/kotlin/com/example/graphqlkotlinspringserver/GraphqlKotlinSpringServerApplication.kt:231 | none exactly when no car has the id; otherwise a car with that id at a position before which no car has the id (the first one) |
| Cars.WithBrand | src/main/kotlin/com/example/graphqlkotlinspringserver/GraphqlKotlinSpringServerApplication.kt:232 | a car is in the result exactly when it is stored and has the brand; never longer than the store |
| Cars.WithBrandAppend | src/main/kotlin/com/example/graphqlkotlinspringserver/GraphqlKotlinSpringServerApplication.kt:232 | filtering distributes over concatenation, so matching cars keep their stored order |
| Cars.FirstWithIdAppend | src/main/kotlin/com/example/graphqlkotlinspringserver/GraphqlKotlinSpringServerApplication.kt:231-236 | after appending a car, a lookup that found a car still finds it; otherwise it finds the new car exactly when the ids match |
| Cars.AppendFreshKeepsDistinct | src/main/kotlin/com/example/graphqlkotlinspringserver/GraphqlKotlinSpringServerApplication.kt:234-237 | appending a car whose id is absent keeps ids distinct and makes the lookup of its id return it |
| Cars.CarRepository.constructor | src/main/kotlin/com/example/graphqlkotlinspringserver/GraphqlKotlinSpringServerApplication.kt:220-224 | the table holds the three seed cars in order, with distinct ids and well-formed generated plates |
| Cars.CarRepository.CarById | src/main/kotlin/com/example/graphqlkotlinspringserver/GraphqlKotlinSpringServerApplication.kt:231 | none exactly when no stored car has the id; otherwise a stored car with the id, the only one in a valid store |
| Cars.CarRepository.FindCar | src/main/kotlin/com/example/graphqlkotlinspringserver/GraphqlKotlinSpringServerApplication.kt:232 | exactly the stored cars of the brand |
| Cars.CarRepository.All | src/main/kotlin/com/example/graphqlkotlinspringserver/GraphqlKotlinSpringServerApplication.kt:233 | a value equal to the stored list, which later adds cannot change |
| Cars.CarRepository.Add | src/main/kotlin/com/example/graphqlkotlinspringserver/GraphqlKotlinSpringServerApplication.kt:234-237 | fails exactly when the id is already stored, then reports DuplicateId and leaves the table unchanged; otherwise appends the car, keeps ids distinct, makes `CarById` return it, leaves other lookups unchanged and extends `FindCar` of its brand by it |
| Cars.CarMutation.constructor | src/main/kotlin/com/example/graphqlkotlinspringserver/GraphqlKotlinSpringServerApplication.kt:150-153 | the mutation works on the given repository |
| Cars.CarMutation.AddCar | src/main/kotlin/com/example/graphqlkotlinspringserver/GraphqlKotlinSpringServerApplication.kt:155-166 | on success returns a car with the input's id, brand, model and year and the plate the generator produces from the draws (hence well formed), and that car is the new last entry; fails with DuplicateId, table unchanged, exactly when the id is stored; keeps "all plates well formed" when it held |

## Left out

- `java.util.Random`: modelled as caller-supplied draws, not as a pseudo-random generator; uniformity of the draws is not modelled.
- The seed cars' `randomUUID()` ids and `CarIdQuery.generateCarId`: ids are constructor parameters, required to differ (random UUIDs collide with negligible probability, which the model does not capture).
- `CarQuery` (`cars`, `carByBrand`, `carById`) and `LicensePlateQuery`: one-line delegations to the repository and the generator, with no logic of their own.
- `Car.owners()` and the `persons` list: a random shuffle with no stated contract.
- `uuidThing()`: reads the wall clock.
- UUID scalar coercion (`graphqlUUIDType`, `UUIDCoercing`) and the schema generator hooks: calls into the GraphQL and UUID libraries.
- Spring bootstrap, dependency injection, the startup event listener and logging: framework plumbing.
- `suspend` and request-level concurrency: the model is single-threaded.
- Cars.CarMutation.constructor: the mutation also receives a `LicensePlateGenerator`; the model drops that parameter and `AddCar` takes the Swedish generator's draws instead, so its well-formed-plate guarantee holds for that generator only.
- Cars.CarRepository.constructor: the repository depends on the `LicensePlateGenerator` interface; the model fixes it to the Swedish generator, the only implementation, and takes that generator's draws as parameters.
- The error message text of `add`'s failed `require` is not modelled; the failure carries the offending id instead.
