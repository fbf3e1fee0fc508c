/** What bulk production yields, as functions of the configuration and the
    cursor: the round-robin picks of make_n_cars and the sub-batches of
    make_cars_from_hash (car_factory.rb). */
module Production {
  import opened Wrappers
  import opened Brands

  /** Iterations of Ruby's `n.times`: none for n <= 0. */
  function Times(n: int): nat {
    if n > 0 then n else 0
  }

  /** The cursor states a factory can be in: an index of a non-empty brand list, else 0. */
  predicate CursorInRange(cfg: BrandConfig, cursor: int) {
    if cfg.Many? && |cfg.list| > 0 then 0 <= cursor < |cfg.list| else cursor == 0
  }

  /** tick_brands_counter on a list: one step forward, wrapping modulo its length. */
  function Tick(cursor: nat, len: nat): (r: nat)
    requires cursor < len
    ensures r < len
    ensures r == if cursor + 1 == len then 0 else cursor + 1
  {
    (cursor + 1) % len
  }

  /** The brands of `n` successive round-robin picks starting at `cursor`:
      take the brand under the cursor, then tick. */
  function RoundRobin(list: seq<Brand>, cursor: nat, n: nat): seq<Brand>
    requires cursor < |list|
    decreases n
  {
    if n == 0 then [] else [list[cursor]] + RoundRobin(list, Tick(cursor, |list|), n - 1)
  }

  /** Quotient and remainder are unique: any decomposition x == q * len + r with
      0 <= r < len is the one Dafny's `/` and `%` give. */
  lemma ModUnique(x: int, len: int, q: int, r: int)
    requires 0 < len && x == q * len + r && 0 <= r < len
    ensures x % len == r
  {
    var q0, r0 := x / len, x % len;
    assert x == q0 * len + r0;
    assert (q - q0) * len == r0 - r;
    if q > q0 {
      MulAtLeast(q - q0, len);
    } else if q < q0 {
      MulAtLeast(q0 - q, len);
    }
  }

  lemma MulAtLeast(k: int, len: int)
    requires k >= 1 && len > 0
    ensures k * len >= len
  {
  }

  lemma ModShift(a: nat, len: nat)
    requires 0 < len
    ensures (a + len) % len == a % len
  {
    assert a == (a / len) * len + a % len;
    ModUnique(a + len, len, a / len + 1, a % len);
  }

  /** The i-th pick is the brand at (cursor + i) modulo the list length. */
  lemma {:induction false} RoundRobinAt(list: seq<Brand>, cursor: nat, n: nat, i: nat)
    requires cursor < |list|
    requires i < n
    ensures |RoundRobin(list, cursor, n)| == n
    ensures RoundRobin(list, cursor, n)[i] == list[(cursor + i) % |list|]
    decreases n
  {
    RoundRobinLength(list, cursor, n);
    if i > 0 {
      var next := Tick(cursor, |list|);
      RoundRobinAt(list, next, n - 1, i - 1);
      if cursor + 1 == |list| {
        ModShift(i - 1, |list|);
        assert cursor + i == (i - 1) + |list|;
      } else {
        assert next + (i - 1) == cursor + i;
      }
    } else {
      ModUnique(cursor, |list|, 0, cursor);
    }
  }

  lemma {:induction false} RoundRobinLength(list: seq<Brand>, cursor: nat, n: nat)
    requires cursor < |list|
    ensures |RoundRobin(list, cursor, n)| == n
    decreases n
  {
    if n > 0 {
      RoundRobinLength(list, Tick(cursor, |list|), n - 1);
    }
  }

  /** Picks continue where the cursor stopped: n picks followed by m picks from the
      cursor they leave behind are the same as n + m picks in one go. */
  lemma RoundRobinSplit(list: seq<Brand>, cursor: nat, n: nat, m: nat)
    requires cursor < |list|
    ensures (cursor + n) % |list| < |list|
    ensures RoundRobin(list, cursor, n + m)
         == RoundRobin(list, cursor, n) + RoundRobin(list, (cursor + n) % |list|, m)
  {
    var len := |list|;
    var c2 := (cursor + n) % len;
    var whole := RoundRobin(list, cursor, n + m);
    var first := RoundRobin(list, cursor, n);
    var second := RoundRobin(list, c2, m);
    RoundRobinLength(list, cursor, n + m);
    RoundRobinLength(list, cursor, n);
    RoundRobinLength(list, c2, m);
    forall k | 0 <= k < n + m
      ensures whole[k] == (first + second)[k]
    {
      RoundRobinAt(list, cursor, n + m, k);
      if k < n {
        RoundRobinAt(list, cursor, n, k);
      } else {
        RoundRobinAt(list, c2, m, k - n);
        ModSum(cursor + n, k - n, len);
      }
    }
  }

  lemma ModSum(a: nat, b: nat, len: nat)
    requires 0 < len
    ensures (a % len + b) % len == (a + b) % len
  {
    var x := a % len + b;
    assert a == (a / len) * len + a % len;
    assert x == (x / len) * len + x % len;
    ModUnique(a + b, len, a / len + x / len, x % len);
  }

  /** One more pick appends the brand at (start + i) and moves the cursor to (start + i + 1). */
  lemma RoundRobinStep(list: seq<Brand>, start: nat, i: nat)
    requires start < |list|
    ensures (start + i) % |list| < |list|
    ensures RoundRobin(list, start, i + 1) == RoundRobin(list, start, i) + [list[(start + i) % |list|]]
    ensures Tick((start + i) % |list|, |list|) == (start + i + 1) % |list|
  {
    RoundRobinSplit(list, start, i, 1);
    ModSum(start + i, 1, |list|);
  }

  /** brand_from_available_brands as a function of the cursor: the single brand,
      or the listed brand under the cursor; with a brand given, that brand. */
  function NextPick(cfg: BrandConfig, brand: Option<Brand>, cursor: int): Brand
    requires CursorInRange(cfg, cursor)
    requires brand.None? && cfg.Many? ==> |cfg.list| > 0
  {
    if brand.Some? then brand.value
    else match cfg
      case Single(b) => b
      case Many(bs) => bs[cursor]
  }

  /** The cursor after one iteration of make_n_cars: it ticks only for round-robin picks. */
  function NextCursor(cfg: BrandConfig, brand: Option<Brand>, cursor: int): int
    requires CursorInRange(cfg, cursor)
    requires brand.None? && cfg.Many? ==> |cfg.list| > 0
  {
    if brand.None? && cfg.Many? then Tick(cursor, |cfg.list|) else cursor
  }

  /** The brands of the `n` cars make_n_cars builds: all of the given brand, all of
      the single configured brand, or `n` round-robin picks from `cursor`. */
  function NBatch(cfg: BrandConfig, brand: Option<Brand>, cursor: int, n: nat): seq<Brand>
    requires CursorInRange(cfg, cursor)
    requires brand.None? && cfg.Many? && n > 0 ==> |cfg.list| > 0
  {
    if brand.Some? then Repeat(brand.value, n)
    else match cfg
      case Single(b) => Repeat(b, n)
      case Many(bs) => if n == 0 then [] else RoundRobin(bs, cursor, n)
  }

  /** The cursor make_n_cars leaves behind after `n` iterations. */
  function NBatchCursor(cfg: BrandConfig, brand: Option<Brand>, cursor: int, n: nat): int
    requires CursorInRange(cfg, cursor)
    requires brand.None? && cfg.Many? && n > 0 ==> |cfg.list| > 0
  {
    if brand.None? && cfg.Many? && n > 0 then (cursor + n) % |cfg.list| else cursor
  }

  /** One more iteration of make_n_cars appends the next pick and moves the cursor on,
      which stays in range. */
  lemma NBatchStep(cfg: BrandConfig, brand: Option<Brand>, cursor: int, i: nat)
    requires CursorInRange(cfg, cursor)
    requires brand.None? && cfg.Many? ==> |cfg.list| > 0
    ensures CursorInRange(cfg, NBatchCursor(cfg, brand, cursor, i))
    ensures NBatch(cfg, brand, cursor, i + 1)
         == NBatch(cfg, brand, cursor, i) + [NextPick(cfg, brand, NBatchCursor(cfg, brand, cursor, i))]
    ensures NBatchCursor(cfg, brand, cursor, i + 1)
         == NextCursor(cfg, brand, NBatchCursor(cfg, brand, cursor, i))
  {
    if brand.Some? {
      assert Repeat(brand.value, i + 1) == Repeat(brand.value, i) + [brand.value];
    } else if cfg.Single? {
      assert Repeat(cfg.brand, i + 1) == Repeat(cfg.brand, i) + [cfg.brand];
    } else {
      var len := |cfg.list|;
      RoundRobinStep(cfg.list, cursor, i);
      if i == 0 {
        ModUnique(cursor, len, 0, cursor);
      }
    }
  }

  /** What make_n_cars promises, case by case: with a brand given, or on a
      single-brand factory, `n` cars of that one brand and the cursor unmoved;
      otherwise the i-th car has the listed brand at (cursor + i) and the cursor
      ends at (cursor + n), both modulo the list length. */
  lemma NBatchSpec(cfg: BrandConfig, brand: Option<Brand>, cursor: int, n: nat)
    requires CursorInRange(cfg, cursor)
    requires brand.None? && cfg.Many? && n > 0 ==> |cfg.list| > 0
    ensures |NBatch(cfg, brand, cursor, n)| == n
    ensures CursorInRange(cfg, NBatchCursor(cfg, brand, cursor, n))
    ensures brand.Some? ==> forall i :: 0 <= i < n ==> NBatch(cfg, brand, cursor, n)[i] == brand.value
    ensures brand.None? && cfg.Single? ==> forall i :: 0 <= i < n ==> NBatch(cfg, brand, cursor, n)[i] == cfg.brand
    ensures brand.Some? || cfg.Single? || n == 0 ==> NBatchCursor(cfg, brand, cursor, n) == cursor
    ensures brand.None? && cfg.Many? && n > 0 ==>
              NBatchCursor(cfg, brand, cursor, n) == (cursor + n) % |cfg.list|
              && forall i :: 0 <= i < n ==> NBatch(cfg, brand, cursor, n)[i] == cfg.list[(cursor + i) % |cfg.list|]
  {
    if brand.None? && cfg.Many? && n > 0 {
      var len := |cfg.list|;
      RoundRobinLength(cfg.list, cursor, n);
      forall i | 0 <= i < n
        ensures NBatch(cfg, brand, cursor, n)[i] == cfg.list[(cursor + i) % len]
      {
        RoundRobinAt(cfg.list, cursor, n, i);
      }
      assert (cursor + n) % len < len;
    }
  }

  /** One full cycle of picks from any cursor is the list rotated to that cursor,
      so every configured brand is picked equally often. */
  lemma RoundRobinFullCycle(list: seq<Brand>, cursor: nat)
    requires cursor < |list|
    ensures RoundRobin(list, cursor, |list|) == list[cursor..] + list[..cursor]
    ensures multiset(RoundRobin(list, cursor, |list|)) == multiset(list)
  {
    var len := |list|;
    var rot := list[cursor..] + list[..cursor];
    RoundRobinLength(list, cursor, len);
    forall k | 0 <= k < len
      ensures RoundRobin(list, cursor, len)[k] == rot[k]
    {
      RoundRobinAt(list, cursor, len, k);
      if cursor + k >= len {
        ModUnique(cursor + k, len, 1, cursor + k - len);
      } else {
        ModUnique(cursor + k, len, 0, cursor + k);
      }
    }
    assert list == list[..cursor] + list[cursor..];
  }

  /** Three picks from a fresh cursor over [fiat, ford, subaru] give the list;
      the next two picks, from the cursor those three leave, are fiat and ford. */
  lemma SuccessiveBatchesExample()
    ensures RoundRobin(["fiat", "ford", "subaru"], 0, 3) == ["fiat", "ford", "subaru"]
    ensures RoundRobin(["fiat", "ford", "subaru"], (0 + 3) % 3, 2) == ["fiat", "ford"]
  {
    var plant := ["fiat", "ford", "subaru"];
    RoundRobinFullCycle(plant, 0);
    assert plant[0..] + plant[..0] == plant;
    ModUnique(3, 3, 1, 0);
    RoundRobinSplit(plant, 0, 2, 1);
  }

  /** `n` brands all equal to `b`: one fixed-brand sub-batch. */
  function Repeat(b: Brand, n: nat): (r: seq<Brand>)
    ensures |r| == n
    ensures forall i :: 0 <= i < n ==> r[i] == b
  {
    seq(n, _ => b)
  }

  /** The brands make_cars_from_hash produces: each pair in iteration order whose
      brand the list holds adds a sub-batch of its amount; other pairs add nothing. */
  function FromHash(list: seq<Brand>, pairs: seq<(Brand, int)>): seq<Brand>
    decreases |pairs|
  {
    if pairs == [] then []
    else
      var last := pairs[|pairs| - 1];
      FromHash(list, pairs[..|pairs| - 1]) + (if last.0 in list then Repeat(last.0, Times(last.1)) else [])
  }

  /** Mappings handled one after the other produce the concatenation of their batches. */
  lemma {:induction false} FromHashConcat(list: seq<Brand>, p1: seq<(Brand, int)>, p2: seq<(Brand, int)>)
    ensures FromHash(list, p1 + p2) == FromHash(list, p1) + FromHash(list, p2)
    decreases |p2|
  {
    if p2 == [] {
      assert p1 + p2 == p1;
    } else {
      var init := p2[..|p2| - 1];
      assert (p1 + p2)[..|p1 + p2| - 1] == p1 + init;
      FromHashConcat(list, p1, init);
    }
  }

  /** A pair whose brand the factory does not carry is skipped without trace. */
  lemma FromHashSkips(list: seq<Brand>, p1: seq<(Brand, int)>, b: Brand, amount: int, p2: seq<(Brand, int)>)
    requires b !in list
    ensures FromHash(list, p1 + [(b, amount)] + p2) == FromHash(list, p1 + p2)
  {
    FromHashConcat(list, p1 + [(b, amount)], p2);
    FromHashConcat(list, p1, [(b, amount)]);
    FromHashConcat(list, p1, p2);
    assert FromHash(list, [(b, amount)]) == [] by {
      assert [(b, amount)][..0] == [];
    }
  }

  /** Cars requested for brand `b` by a mapping, negative amounts counting as none. */
  function AmountFor(pairs: seq<(Brand, int)>, b: Brand): nat
    decreases |pairs|
  {
    if pairs == [] then 0
    else
      var last := pairs[|pairs| - 1];
      AmountFor(pairs[..|pairs| - 1], b) + (if last.0 == b then Times(last.1) else 0)
  }

  /** Every brand the factory carries is produced exactly as often as the mapping
      asks for it in total; every other brand not at all. */
  lemma {:induction false} FromHashCount(list: seq<Brand>, pairs: seq<(Brand, int)>, b: Brand)
    ensures multiset(FromHash(list, pairs))[b] == if b in list then AmountFor(pairs, b) else 0
    decreases |pairs|
  {
    if pairs != [] {
      var last := pairs[|pairs| - 1];
      FromHashCount(list, pairs[..|pairs| - 1], b);
      if last.0 in list {
        RepeatCount(last.0, Times(last.1), b);
      }
    }
  }

  lemma {:induction false} RepeatCount(c: Brand, n: nat, b: Brand)
    ensures multiset(Repeat(c, n))[b] == if c == b then n else 0
    decreases n
  {
    if n > 0 {
      assert Repeat(c, n) == Repeat(c, n - 1) + [c];
      RepeatCount(c, n - 1, b);
    }
  }

  /** The cars built for a sequence of brands, one per brand, in order. */
  function CarsOf(bs: seq<Brand>): (r: seq<Car>)
    ensures |r| == |bs|
    ensures forall i :: 0 <= i < |bs| ==> r[i].brand == bs[i]
  {
    seq(|bs|, i requires 0 <= i < |bs| => Car(bs[i]))
  }
}
