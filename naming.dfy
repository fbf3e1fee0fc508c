/** The factory's display name: `name` and `formatted_brand_names`
    (car_factory.rb), with Ruby's String#capitalize restricted to ASCII. */
module Naming {
  import opened Brands

  function Upper(c: char): char {
    if 'a' <= c <= 'z' then (c as int - 32) as char else c
  }

  function Lower(c: char): char {
    if 'A' <= c <= 'Z' then (c as int + 32) as char else c
  }

  function LowerAll(s: string): string {
    if s == [] then [] else [Lower(s[0])] + LowerAll(s[1..])
  }

  lemma {:induction false} LowerAllAt(s: string)
    ensures |LowerAll(s)| == |s|
    ensures forall i :: 0 <= i < |s| ==> LowerAll(s)[i] == Lower(s[i])
  {
    if s != [] {
      LowerAllAt(s[1..]);
    }
  }

  /** String#capitalize: the first character upper-cased, every other one lower-cased. */
  function Capitalize(s: string): string {
    if s == [] then [] else [Upper(s[0])] + LowerAll(s[1..])
  }

  /** Capitalize, character by character: same length, the first character
      upper-cased and every later one lower-cased. */
  lemma CapitalizeAt(s: string)
    ensures |Capitalize(s)| == |s|
    ensures |s| > 0 ==> Capitalize(s)[0] == Upper(s[0])
    ensures forall i :: 1 <= i < |s| ==> Capitalize(s)[i] == Lower(s[i])
  {
    if s != [] {
      LowerAllAt(s[1..]);
    }
  }

  /** Capitalizing twice is capitalizing once. */
  lemma CapitalizeIdempotent(s: string)
    ensures Capitalize(Capitalize(s)) == Capitalize(s)
  {
    var c := Capitalize(s);
    CapitalizeAt(s);
    CapitalizeAt(c);
    assert forall i :: 0 <= i < |s| ==> Capitalize(c)[i] == c[i];
  }

  /** Array#join(', '). */
  function Join(names: seq<string>): string {
    if |names| == 0 then ""
    else if |names| == 1 then names[0]
    else names[0] + ", " + Join(names[1..])
  }

  /** Joining two non-empty runs of names puts one separator between them. */
  lemma {:induction false} JoinConcat(xs: seq<string>, ys: seq<string>)
    requires |xs| > 0 && |ys| > 0
    ensures Join(xs + ys) == Join(xs) + ", " + Join(ys)
  {
    if |xs| == 1 {
      assert (xs + ys)[1..] == ys;
    } else {
      assert (xs + ys)[1..] == xs[1..] + ys;
      JoinConcat(xs[1..], ys);
    }
  }

  function CapitalizeAll(bs: seq<Brand>): seq<string> {
    seq(|bs|, i requires 0 <= i < |bs| => Capitalize(bs[i]))
  }

  /** A joined list starts with its first name and ends with its last. */
  lemma {:induction false} JoinEnds(names: seq<string>)
    requires |names| > 0
    ensures names[0] <= Join(names)
    ensures |names[|names| - 1]| <= |Join(names)|
    ensures Join(names)[|Join(names)| - |names[|names| - 1]|..] == names[|names| - 1]
  {
    if |names| > 1 {
      JoinEnds(names[1..]);
      assert names[1..][|names[1..]| - 1] == names[|names| - 1];
    }
  }

  /** formatted_brand_names: the single brand capitalized, or the listed brands
      capitalized and joined with ", ". */
  function FormattedBrandNames(cfg: BrandConfig): (r: string)
    ensures cfg.Single? ==> |r| == |cfg.brand| && (|r| > 0 ==> r[0] == Upper(cfg.brand[0]))
    ensures cfg.Many? && cfg.list == [] ==> r == ""
    ensures cfg.Many? && cfg.list != [] ==> Capitalize(cfg.list[0]) <= r
    ensures cfg.Many? && cfg.list != [] ==>
              var last := Capitalize(cfg.list[|cfg.list| - 1]);
              |last| <= |r| && r[|r| - |last|..] == last
  {
    match cfg
    case Single(b) =>
      CapitalizeAt(b);
      Capitalize(b)
    case Many(bs) =>
      if bs == [] then ""
      else
        JoinEnds(CapitalizeAll(bs));
        Join(CapitalizeAll(bs))
  }

  /** name: the factory name, then " (produces ", then the formatted brand names,
      then a closing parenthesis. */
  function DisplayName(factoryName: string, cfg: BrandConfig): (r: string)
    ensures factoryName + " (produces " <= r
    ensures |r| == |factoryName| + 12 + |FormattedBrandNames(cfg)|
    ensures r[|r| - |FormattedBrandNames(cfg)| - 1..] == FormattedBrandNames(cfg) + ")"
  {
    factoryName + " (produces " + FormattedBrandNames(cfg) + ")"
  }

  /** A single-brand factory is named like a factory listing that one brand. */
  lemma SingleNamedAsOneElementList(factoryName: string, b: Brand)
    ensures DisplayName(factoryName, Single(b)) == DisplayName(factoryName, Many([b]))
  {
    assert CapitalizeAll([b]) == [Capitalize(b)];
  }

  /** The formatted list of a concatenation is the two formatted lists joined by ", ". */
  lemma FormattedListConcat(bs1: seq<Brand>, bs2: seq<Brand>)
    requires |bs1| > 0 && |bs2| > 0
    ensures FormattedBrandNames(Many(bs1 + bs2))
         == FormattedBrandNames(Many(bs1)) + ", " + FormattedBrandNames(Many(bs2))
  {
    assert CapitalizeAll(bs1 + bs2) == CapitalizeAll(bs1) + CapitalizeAll(bs2);
    JoinConcat(CapitalizeAll(bs1), CapitalizeAll(bs2));
  }

  /** Two supported brands as shown in a name: capital initial, rest unchanged. */
  lemma FiatAndLanciaNames()
    ensures Capitalize("fiat") == "Fiat" && Capitalize("lancia") == "Lancia"
  {
  }

  /** The other two supported brands as shown in a name. */
  lemma FordAndSubaruNames()
    ensures Capitalize("ford") == "Ford" && Capitalize("subaru") == "Subaru"
  {
  }

  /** A factory listing fiat and lancia formats its brands as "Fiat, Lancia". */
  lemma ListedBrandNames()
    ensures FormattedBrandNames(Many(["fiat", "lancia"])) == "Fiat, Lancia"
  {
    FiatAndLanciaNames();
    assert CapitalizeAll(["fiat", "lancia"]) == ["Fiat", "Lancia"];
    assert ["Fiat", "Lancia"][1..] == ["Lancia"];
  }

  /** ... and is named "<factory name> (produces Fiat, Lancia)". */
  lemma ListedFactoryName(factoryName: string)
    ensures DisplayName(factoryName, Many(["fiat", "lancia"])) == factoryName + " (produces Fiat, Lancia)"
  {
    var cfg := Many(["fiat", "lancia"]);
    assert FormattedBrandNames(cfg) == "Fiat, Lancia" by {
      ListedBrandNames();
    }
    NameWithFormatted(factoryName, cfg, "Fiat, Lancia");
  }

  lemma NameWithFormatted(factoryName: string, cfg: BrandConfig, formatted: string)
    requires FormattedBrandNames(cfg) == formatted
    ensures DisplayName(factoryName, cfg) == factoryName + " (produces " + formatted + ")"
  {
  }
}
