# CarFactory, modelled in Dafny

This project models `CarFactory` from `car_factory.rb`. A factory has a name and a
brand configuration. The configuration is either one brand or an ordered list of
brands. Every configured brand must be one of the supported brands `fiat`, `lancia`,
`ford` and `subaru`. The factory builds cars in three ways:

- one car of a requested brand (`make_car`);
- a number of cars whose brands are picked round-robin from the list (`make_cars(n)`);
- fixed-brand batches from a brand-to-amount mapping (`make_cars(hash)`).

The only state that changes is the round-robin cursor `brands_counter`.

Files:

- `wrappers.dfy`: `Option` and `Result`. An operation that raises returns an error value instead.
- `brands.dfy`: brands and `SUPPORTED_BRANDS`, the configuration `Single(brand) | Many(list)`,
  the `Car` value, and the checks that raise `UnsupportedBrandException`
  (construction check, `brand_available?`, `validate_given_brands`).
- `naming.dfy`: `String#capitalize` on ASCII, `join(', ')`, `formatted_brand_names` and `name`.
- `production.dfy`: specification functions for bulk production and the lemmas about them.
  `RoundRobin` is the brands of n picks from a cursor. `NBatch`/`NBatchCursor` are what
  `make_n_cars` builds and where it leaves the cursor. `FromHash` is what
  `make_cars_from_hash` builds.
- `car_factory.dfy`: class `CarFactory`. `brands` and `factoryName` are constant fields;
  `brandsCounter` is a mutable field. The methods `make_car`, `make_cars`, `make_n_cars`,
  `make_cars_from_hash`, `brand_from_available_brands` and `tick_brands_counter` keep the
  source's loops and calls. Each method is proved against a specification:
  - `MakeNCars`, `MakeCarsFromHash` and `MakeCars` against the functions in `production.dfy`;
  - `MakeCar` against `ValidateGivenBrand` in `brands.dfy`;
  - `Create` against `CheckBrandsSupported` in `brands.dfy`;
  - `PickBrand` and `TickCounter` against the cursor arithmetic of `Tick`.

Construction in the source either raises or yields a factory. It is modelled by
`CarFactory.Create`, which returns `Err` for the first unsupported configured brand and
otherwise a fresh factory whose cursor is 0. The constructor itself requires every
configured brand to be supported.

`make_car` without an argument defaults to the whole `@brands` value. On a
list-configured factory that list is never one of its own elements, so the call always
fails; on a single-brand factory it builds a car of that brand. The model keeps this
asymmetry as written (`BrandArg.WholeConfig`).

Brands are compared exactly as given: `SUPPORTED_BRANDS.include?` on symbols
(car_factory.rb:77) and `brands.include?` (car_factory.rb:55) are plain equality tests.

The bulk paths can crash with Ruby runtime errors other than `UnsupportedBrandException`.
These cases are excluded by preconditions (see "Left out").

## Model

| member | source | states |
|---|---|---|
| `Brands.CheckBrandSupported` | car_factory.rb:76-79 | fails exactly when the brand is outside SUPPORTED_BRANDS, and the failure names that brand |
| `Brands.FirstUnsupported` | car_factory.rb:68-73 | the index found is that of an unsupported brand with every earlier brand supported; there is none exactly when all listed brands are supported |
| `Brands.CheckBrandsSupported` | car_factory.rb:68-74 | the construction check passes exactly when every configured brand is supported; otherwise it names an unsupported configured brand, and every brand before it in list order is supported |
| `Brands.BrandAvailable` | car_factory.rb:54-56 | a brand is available exactly when it occurs at some index of the factory's brand list |
| `Brands.ValidateGivenBrand` | car_factory.rb:58-61 | raises exactly when the factory has a brand list and the requested value is the default (the list itself) or a brand not in the list; a single-brand factory never raises |
| `Naming.CapitalizeAt` | car_factory.rb:64-65 | capitalize keeps the length, upper-cases the first character and lower-cases every later one |
| `Naming.CapitalizeIdempotent` | car_factory.rb:64-65 | capitalizing an already capitalized name changes nothing |
| `Naming.JoinConcat` | car_factory.rb:65 | joining two non-empty runs of names with ", " puts exactly one separator between them |
| `Naming.FormattedListConcat` | car_factory.rb:63-66 | the formatted names of a concatenated brand list are the two formatted parts joined by ", " |
| `Naming.FormattedBrandNames` | car_factory.rb:63-66 | a single brand is shown with its length kept and its first letter upper-cased. An empty list is shown as "". A non-empty list's text starts with its first brand capitalized and ends with its last brand capitalized |
| `Naming.DisplayName` | car_factory.rb:18-20 | the name is the factory name followed by " (produces ", then the formatted brand names and a closing parenthesis, with nothing else in between |
| `Naming.SingleNamedAsOneElementList` | car_factory.rb:18-20 | a single-brand factory's name equals that of a factory listing just that brand |
| `Naming.FiatAndLanciaNames` | car_factory.rb:65 | fiat and lancia are shown as "Fiat" and "Lancia" |
| `Naming.FordAndSubaruNames` | car_factory.rb:65 | ford and subaru are shown as "Ford" and "Subaru" |
| `Naming.ListedBrandNames` | car_factory.rb:63-66 | the list [fiat, lancia] is formatted as "Fiat, Lancia" |
| `Naming.ListedFactoryName` | car_factory.rb:18-20 | a factory listing [fiat, lancia] is named "<name> (produces Fiat, Lancia)" |
| `Production.Tick` | car_factory.rb:88-91 | one tick keeps the cursor inside the list and wraps from the last index to 0 |
| `Production.RoundRobinAt` | car_factory.rb:81-91 | n picks from cursor c give n brands, and the i-th is the listed brand at (c + i) mod the list length |
| `Production.RoundRobinSplit` | car_factory.rb:83-90 | the cursor persists: n picks followed by m picks from the cursor they leave are the same as n + m picks at once |
| `Production.RoundRobinFullCycle` | car_factory.rb:81-91 | one full cycle of picks from any cursor is the list rotated to that cursor, a permutation of the list |
| `Production.SuccessiveBatchesExample` | car_factory.rb:22-23 | on [fiat, ford, subaru], 3 picks from cursor 0 give the whole list, and the next 2 picks, from the cursor (0 + 3) mod 3 those leave, give fiat, ford |
| `Production.NBatchStep` | car_factory.rb:35-41 | one more iteration of make_n_cars appends the next pick and advances the cursor, which stays in range |
| `Production.NBatchSpec` | car_factory.rb:33-43 | make_n_cars builds n cars. With a given brand, or on a single-brand factory, all have that brand and the cursor stays. Otherwise car i has the listed brand at (c + i) mod the length and the cursor ends at (c + n) mod the length |
| `Production.FromHashConcat` | car_factory.rb:45-52 | mapping pairs are handled in iteration order: the batches of a concatenation are the concatenated batches |
| `Production.FromHashSkips` | car_factory.rb:47-48 | a pair whose brand the factory lacks is skipped without a trace or an error |
| `Production.FromHashCount` | car_factory.rb:45-52 | each carried brand appears exactly as often as the mapping's amounts for it add up to (negative amounts count as none); any other brand never appears |
| `Factory.CarFactory.constructor` | car_factory.rb:11-16 | a factory built from supported brands stores its name and brands, and its cursor starts at 0 |
| `Factory.CarFactory.Create` | car_factory.rb:11-16 | construction fails exactly when some configured brand is unsupported, naming the first one in list order; otherwise it yields a fresh valid factory with cursor 0 |
| `Factory.CarFactory.Name` | car_factory.rb:18-20 | the name starts with the factory name and ends with the formatted brand names and ")". It reads only constant fields, never the cursor, so it has no effect and returns the same string on every call |
| `Factory.CarFactory.MakeCar` | car_factory.rb:26-29 | on a list-configured factory it fails exactly for the default argument or a brand not in the list; otherwise the car carries the requested brand (or the single configured brand by default), unchecked; it changes nothing |
| `Factory.CarFactory.TickCounter` | car_factory.rb:88-91 | on a list the cursor advances by one modulo its length; on a single brand it stays |
| `Factory.CarFactory.PickBrand` | car_factory.rb:81-86 | returns the single brand with the cursor unchanged, or the listed brand under the cursor and then ticks |
| `Factory.CarFactory.MakeNCars` | car_factory.rb:33-43 | the cars and the new cursor are exactly NBatch and NBatchCursor of the old cursor; it never raises |
| `Factory.CarFactory.MakeCarsFromHash` | car_factory.rb:45-52 | the cars are exactly the FromHash batches of the mapping; the cursor is not touched |
| `Factory.CarFactory.MakeCars` | car_factory.rb:22-24 | a count n > 0 on a list gives the n round-robin picks from the old cursor and leaves the cursor at (old + n) mod the length. A count on a single brand gives n cars of it. A count n <= 0 gives no cars. A mapping gives its FromHash batches. The cursor moves only in the first case |

## Left out

- `Car` internals: `car.rb` is not part of this model. A car is a value holding the brand it was built with.
- Exception messages: both raises are `UnsupportedBrandException`. The model tells them apart by the check that failed (`BrandNotSupported(brand)` or `BrandNotAvailable`) and does not model the message text.
- `String#capitalize`: modelled for ASCII letters only. Ruby's Unicode case mapping is not modelled.
- Factory.CarFactory.MakeCars: a count n > 0 on an empty brand list is excluded by a precondition. Ruby raises ZeroDivisionError there when ticking the cursor.
- Factory.CarFactory.MakeCarsFromHash: a non-empty mapping on a single-brand factory is excluded by a precondition. Ruby raises NoMethodError there from `Symbol#include?`.
- Factory.CarFactory.constructor: a missing `:brands` argument (`@brands = nil`) is not expressible. Ruby raises NoMethodError there from `nil.capitalize`.
- The `attr_accessor` setters for `brands` and `brands_counter` are not modelled, so `brands` is constant. Writing through these setters could move the cursor outside the list and break `Valid()`.
- Dynamic typing: `is_a?(Integer)` and `is_a?(Array)` become the tagged datatypes `Request` and `BrandConfig`. A `make_car` argument that is an array or `nil`, and a non-integer amount, are not modelled.
- Mapping pairs: a Ruby Hash has unique keys. The model's pair sequence may repeat a key, and each pair is then handled in order.
- Concurrency: the source has none.
