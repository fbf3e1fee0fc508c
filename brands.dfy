/** Brands, the factory's brand configuration, the cars it builds, and the
    two brand checks that raise UnsupportedBrandException (car_factory.rb). */
module Brands {
  import opened Wrappers

  /** A brand identifier; the source uses Ruby symbols (`:fiat`), modelled by their name. */
  type Brand = string

  /** SUPPORTED_BRANDS: the closed set of brands a factory may be configured with. */
  const SupportedBrands: seq<Brand> := ["fiat", "lancia", "ford", "subaru"]

  predicate Supported(b: Brand) {
    b in SupportedBrands
  }

  /** The factory's `brands` field: one brand, or an ordered list of brands. */
  datatype BrandConfig = Single(brand: Brand) | Many(list: seq<Brand>)

  /** The brands a configuration names, in order. */
  function Configured(cfg: BrandConfig): seq<Brand> {
    match cfg
    case Single(b) => [b]
    case Many(bs) => bs
  }

  predicate AllSupported(cfg: BrandConfig) {
    forall b :: b in Configured(cfg) ==> Supported(b)
  }

  /** A car holds the brand it was built with; Car itself checks nothing. */
  datatype Car = Car(brand: Brand)

  /** UnsupportedBrandException, told apart by the check that raised it. */
  datatype Error =
    | BrandNotSupported(brand: Brand)  // construction: a configured brand outside SupportedBrands
    | BrandNotAvailable                // make_car: the factory's list does not hold the requested brand

  /** The argument of make_car: an explicit brand, or the default, which is the
      factory's whole `brands` value. */
  datatype BrandArg = Given(brand: Brand) | WholeConfig

  /** check_if_brand_is_supported: fails naming the brand exactly when it is not supported. */
  function CheckBrandSupported(b: Brand): (r: Option<Error>)
    ensures r.None? <==> Supported(b)
    ensures r.Some? ==> r.value == BrandNotSupported(b)
  {
    if b in SupportedBrands then None else Some(BrandNotSupported(b))
  }

  /** Index of the first unsupported brand of a list, if there is one. */
  function FirstUnsupported(bs: seq<Brand>): (r: Option<nat>)
    ensures r.None? <==> forall i :: 0 <= i < |bs| ==> Supported(bs[i])
    ensures r.Some? ==> r.value < |bs| && !Supported(bs[r.value])
    ensures r.Some? ==> forall j :: 0 <= j < r.value ==> Supported(bs[j])
  {
    if bs == [] then None
    else if !Supported(bs[0]) then Some(0)
    else
      match FirstUnsupported(bs[1..])
      case None => None
      case Some(k) => Some(k + 1)
  }

  /** check_if_brands_are_supported: checks the single brand, or each listed brand
      in order, failing on the first unsupported one. */
  function CheckBrandsSupported(cfg: BrandConfig): (r: Option<Error>)
    ensures r.None? <==> AllSupported(cfg)
    ensures r.Some? ==> r.value.BrandNotSupported? && !Supported(r.value.brand)
    ensures r.Some? ==> exists i :: 0 <= i < |Configured(cfg)| && Configured(cfg)[i] == r.value.brand
                                    && forall j :: 0 <= j < i ==> Supported(Configured(cfg)[j])
  {
    match cfg
    case Single(b) =>
      assert Configured(cfg)[0] == b;
      CheckBrandSupported(b)
    case Many(bs) =>
      match FirstUnsupported(bs)
      case None => None
      case Some(i) => Some(BrandNotSupported(bs[i]))
  }

  /** brand_available?: the factory's brand list holds the brand. */
  predicate BrandAvailable(list: seq<Brand>, b: Brand): (r: bool)
    ensures r <==> exists i :: 0 <= i < |list| && list[i] == b
  {
    b in list
  }

  /** validate_given_brands: only a list-configured factory checks the requested brand,
      and the default argument (the list itself) is never one of its own elements. */
  function ValidateGivenBrand(cfg: BrandConfig, arg: BrandArg): (r: Option<Error>)
    ensures r.Some? <==> cfg.Many? && (arg.WholeConfig? || arg.brand !in cfg.list)
    ensures r.Some? ==> r.value == BrandNotAvailable
  {
    if cfg.Many? && !(arg.Given? && BrandAvailable(cfg.list, arg.brand)) then Some(BrandNotAvailable) else None
  }
}
