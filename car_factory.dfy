/** CarFactory (car_factory.rb): a factory configured with one brand or a list
    of brands, whose only changing state is the round-robin cursor
    `brandsCounter`. */
module Factory {
  import opened Wrappers
  import opened Brands
  import opened Naming
  import opened Production

  /** The argument of make_cars: a count, or a brand-to-amount mapping as its
      pairs in the mapping's (insertion) order. */
  datatype Request = Count(n: int) | ByBrand(pairs: seq<(Brand, int)>)

  class CarFactory {
    const factoryName: string
    const brands: BrandConfig
    var brandsCounter: int

    /** Every configured brand is supported (checked at construction) and the
        cursor indexes the brand list. */
    ghost predicate Valid()
      reads this
    {
      AllSupported(brands) && CursorInRange(brands, brandsCounter)
    }

    /** initialize, once the brand check has passed. */
    constructor (factoryName: string, brands: BrandConfig)
      requires AllSupported(brands)
      ensures Valid()
      ensures this.factoryName == factoryName && this.brands == brands && brandsCounter == 0
    {
      this.factoryName := factoryName;
      this.brands := brands;
      brandsCounter := 0;
    }

    /** CarFactory.new: raises for the first unsupported configured brand, and
        otherwise yields a fresh factory whose cursor is 0. */
    static method Create(factoryName: string, brands: BrandConfig) returns (r: Result<CarFactory, Error>)
      ensures r.Err? <==> !AllSupported(brands)
      ensures r.Err? ==> Some(r.error) == CheckBrandsSupported(brands)
      ensures r.Ok? ==> fresh(r.value) && r.value.Valid() && r.value.brandsCounter == 0
      ensures r.Ok? ==> r.value.factoryName == factoryName && r.value.brands == brands
    {
      var failure := CheckBrandsSupported(brands);
      if failure.Some? {
        return Err(failure.value);
      }
      var f := new CarFactory(factoryName, brands);
      return Ok(f);
    }

    /** name: the factory name followed by the brands it produces. It reads only
        the constant fields, never the cursor, so it changes nothing and gives
        the same string on every call. */
    function Name(): (r: string)
      ensures factoryName <= r
      ensures |FormattedBrandNames(brands)| + 1 <= |r|
      ensures r[|r| - |FormattedBrandNames(brands)| - 1..] == FormattedBrandNames(brands) + ")"
    {
      DisplayName(factoryName, brands)
    }

    /** make_car: on a list-configured factory the requested brand must be in the
        list (and the default, the list itself, never is); a single-brand factory
        builds whatever it is asked for. The cursor is not touched. */
    method MakeCar(arg: BrandArg) returns (r: Result<Car, Error>)
      ensures r.Err? <==> brands.Many? && (arg.WholeConfig? || arg.brand !in brands.list)
      ensures r.Err? ==> r.error == BrandNotAvailable
      ensures r.Ok? && arg.Given? ==> r.value == Car(arg.brand)
      ensures r.Ok? && arg.WholeConfig? ==> brands.Single? && r.value == Car(brands.brand)
    {
      var failure := ValidateGivenBrand(brands, arg);
      if failure.Some? {
        return Err(failure.value);
      }
      var brand := if arg.Given? then arg.brand else brands.brand;
      r := Ok(Car(brand));
    }

    /** tick_brands_counter: on a list, advance the cursor modulo its length. */
    method TickCounter()
      requires Valid()
      requires brands.Many? ==> |brands.list| > 0
      modifies this`brandsCounter
      ensures Valid()
      ensures brands.Single? ==> brandsCounter == old(brandsCounter)
      ensures brands.Many? ==> brandsCounter == Tick(old(brandsCounter), |brands.list|)
    {
      if brands.Single? {
        return;
      }
      brandsCounter := (brandsCounter + 1) % |brands.list|;
    }

    /** brand_from_available_brands: the single brand, or the listed brand under
        the cursor, after which the cursor ticks. */
    method PickBrand() returns (b: Brand)
      requires Valid()
      requires brands.Many? ==> |brands.list| > 0
      modifies this`brandsCounter
      ensures Valid()
      ensures brands.Single? ==> b == brands.brand && brandsCounter == old(brandsCounter)
      ensures brands.Many? ==>
                b == brands.list[old(brandsCounter)]
                && brandsCounter == Tick(old(brandsCounter), |brands.list|)
    {
      if brands.Single? {
        return brands.brand;
      }
      b := brands.list[brandsCounter];
      TickCounter();
    }

    /** make_n_cars: `amount` cars, each of the given brand, or, with no brand,
        of the next round-robin pick. Nothing here can raise. */
    method MakeNCars(amount: int, brand: Option<Brand>) returns (cars: seq<Car>)
      requires Valid()
      requires brand.Some? && brands.Many? ==> brand.value in brands.list
      requires brand.None? && brands.Many? && amount > 0 ==> |brands.list| > 0
      modifies this`brandsCounter
      ensures Valid()
      ensures cars == CarsOf(NBatch(brands, brand, old(brandsCounter), Times(amount)))
      ensures brandsCounter == NBatchCursor(brands, brand, old(brandsCounter), Times(amount))
    {
      ghost var start := brandsCounter;
      ghost var picked: seq<Brand> := [];
      cars := [];
      var i := 0;
      while i < amount
        invariant Valid()
        invariant 0 <= i <= Times(amount)
        invariant cars == CarsOf(picked)
        invariant picked == NBatch(brands, brand, start, i)
        invariant brandsCounter == NBatchCursor(brands, brand, start, i)
      {
        NBatchStep(brands, brand, start, i);
        var b: Brand;
        if brand.Some? {
          b := brand.value;
        } else {
          b := PickBrand();
        }
        var car := MakeCar(Given(b));
        picked := picked + [b];
        cars := cars + [car.value];
        i := i + 1;
      }
    }

    /** make_cars_from_hash: for each pair in order whose brand the list holds, a
        fixed-brand sub-batch of its amount; other pairs are skipped. A
        single-brand factory can only be given an empty mapping. */
    method MakeCarsFromHash(pairs: seq<(Brand, int)>) returns (cars: seq<Car>)
      requires Valid()
      requires brands.Many? || pairs == []
      modifies this`brandsCounter
      ensures Valid()
      ensures brandsCounter == old(brandsCounter)
      ensures brands.Many? ==> cars == CarsOf(FromHash(brands.list, pairs))
      ensures brands.Single? ==> cars == []
    {
      cars := [];
      var i := 0;
      while i < |pairs|
        invariant Valid()
        invariant 0 <= i <= |pairs|
        invariant brandsCounter == old(brandsCounter)
        invariant brands.Many? || pairs == []
        invariant brands.Many? ==> cars == CarsOf(FromHash(brands.list, pairs[..i]))
        invariant brands.Single? ==> cars == []
      {
        var (b, amount) := pairs[i];
        assert pairs[..i + 1][..i] == pairs[..i];
        if BrandAvailable(brands.list, b) {
          var batch := MakeNCars(amount, Some(b));
          assert CarsOf(FromHash(brands.list, pairs[..i + 1])) == cars + batch;
          cars := cars + batch;
        }
        i := i + 1;
      }
      assert pairs[..i] == pairs;
    }

    /** make_cars: dispatch on the shape of the request. */
    method MakeCars(config: Request) returns (cars: seq<Car>)
      requires Valid()
      requires config.Count? && brands.Many? && config.n > 0 ==> |brands.list| > 0
      requires config.ByBrand? ==> brands.Many? || config.pairs == []
      modifies this`brandsCounter
      ensures Valid()
      ensures config.Count? && brands.Many? && config.n > 0 ==>
                cars == CarsOf(RoundRobin(brands.list, old(brandsCounter), config.n))
                && brandsCounter == (old(brandsCounter) + config.n) % |brands.list|
      ensures config.Count? && brands.Single? ==> cars == CarsOf(Repeat(brands.brand, Times(config.n)))
      ensures config.Count? && config.n <= 0 ==> cars == []
      ensures config.ByBrand? && brands.Many? ==> cars == CarsOf(FromHash(brands.list, config.pairs))
      ensures config.ByBrand? && brands.Single? ==> cars == []
      ensures config.ByBrand? || brands.Single? || config.n <= 0 ==> brandsCounter == old(brandsCounter)
    {
      match config
      case Count(n) =>
        ghost var start := brandsCounter;
        cars := MakeNCars(n, None);
        NBatchSpec(brands, None, start, Times(n));
        if brands.Many? && n > 0 {
          RoundRobinLength(brands.list, start, n);
        }
      case ByBrand(pairs) =>
        cars := MakeCarsFromHash(pairs);
    }
  }

  /** Mapping and single-car production: unknown mapping keys are skipped, while
      a single car of a brand outside the list, or with no brand, is refused. */
  method MappingRunExample() {
    var plant := ["fiat", "ford"];
    assert AllSupported(Many(plant)) by {
      assert forall b :: b in plant ==> b in SupportedBrands;
    }
    var r := CarFactory.Create("Turin Plant", Many(plant));
    var f := r.value;

    var pairs := [("fiat", 2), ("lancia", 1)];
    var mixed := f.MakeCars(ByBrand(pairs));
    assert mixed == CarsOf(["fiat", "fiat"]) by {
      FromHashSkips(plant, [("fiat", 2)], "lancia", 1, []);
      assert [("fiat", 2)] + [("lancia", 1)] + [] == pairs;
      assert [("fiat", 2)][..0] == [];
      assert FromHash(plant, [("fiat", 2)]) == ["fiat", "fiat"];
    }

    var lancia := f.MakeCar(Given("lancia"));
    assert lancia == Err(BrandNotAvailable);
    var whole := f.MakeCar(WholeConfig);
    assert whole == Err(BrandNotAvailable);
  }

  /** Construction stops at the first unsupported brand of the list. */
  method RejectedConfigurationExample() {
    var listed := ["fiat", "ford", "tesla"];
    assert !Supported("tesla") && Supported("fiat") && Supported("ford");
    assert listed[1..] == ["ford", "tesla"] && listed[1..][1..] == ["tesla"];
    assert FirstUnsupported(listed) == Some(2);
    var rejected := CarFactory.Create("Detroit Plant", Many(listed));
    assert rejected == Err(BrandNotSupported("tesla"));
  }
}
