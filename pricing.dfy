/** Slab pricing: which quantity tier applies to an order of a product, and
    the unit price, total and savings that follow from it. Nothing here
    changes stored state. */
module Pricing {
  import opened Base
  import opened Records

  /** `!slab.max_quantity`: an absent or zero maximum means no upper bound. */
  predicate Unbounded(s: Slab) {
    s.max_quantity.None? || s.max_quantity.value == 0
  }

  /** A slab can be applied to `quantity` when it is active, the quantity
      reaches its minimum and its maximum is unbounded or not exceeded. */
  predicate Applies(s: Slab, quantity: nat) {
    s.is_active && quantity >= s.min_quantity && (Unbounded(s) || quantity <= s.max_quantity.value)
  }

  /** Array.prototype.filter on a slab list. */
  function Filter(ss: seq<Slab>, p: Slab -> bool): (r: seq<Slab>)
    ensures |r| <= |ss|
    ensures forall s :: s in r <==> s in ss && p(s)
  {
    if ss == [] then []
    else if p(ss[0]) then [ss[0]] + Filter(ss[1..], p)
    else Filter(ss[1..], p)
  }

  /** The two filters the price endpoint applies, in its order: active and
      reached, then within the maximum. */
  function ValidSlabs(slabs: seq<Slab>, quantity: nat): (r: seq<Slab>)
    ensures forall s :: s in r <==> s in slabs && Applies(s, quantity)
  {
    Filter(Filter(slabs, (s: Slab) => s.is_active && quantity >= s.min_quantity),
           (s: Slab) => Unbounded(s) || quantity <= s.max_quantity.value)
  }

  /** The position a stable sort by decreasing min_quantity moves to the
      front: the first of the slabs with the largest minimum. */
  function FirstLargest(ss: seq<Slab>): (k: nat)
    requires |ss| > 0
    ensures k < |ss|
    ensures forall j :: 0 <= j < |ss| ==> ss[j].min_quantity <= ss[k].min_quantity
    ensures forall j :: 0 <= j < k ==> ss[j].min_quantity < ss[k].min_quantity
  {
    if |ss| == 1 then 0
    else
      var k := FirstLargest(ss[1..]);
      if ss[1..][k].min_quantity > ss[0].min_quantity then k + 1 else 0
  }

  /** The applied slab: the head of the valid slabs sorted by decreasing
      min_quantity, or none when no slab is valid. */
  function SelectSlab(slabs: seq<Slab>, quantity: nat): (r: Option<Slab>)
    ensures r.None? <==> forall s :: s in slabs ==> !Applies(s, quantity)
    ensures r.Some? ==> r.value in slabs && Applies(r.value, quantity)
    ensures r.Some? ==> forall s :: s in slabs && Applies(s, quantity) ==>
                          s.min_quantity <= r.value.min_quantity
  {
    var valid := ValidSlabs(slabs, quantity);
    if valid == [] then None
    else
      assert valid[0] in valid;
      var k := FirstLargest(valid);
      assert forall s :: s in valid ==> s.min_quantity <= valid[k].min_quantity by {
        forall s | s in valid ensures s.min_quantity <= valid[k].min_quantity {
          var j :| 0 <= j < |valid| && valid[j] == s;
        }
      }
      Some(valid[k])
  }

  /** The slab at position `k` is the one a stable sort puts first: it
      applies, no applying slab has a larger minimum, and every applying
      slab stored before it has a smaller one. */
  ghost predicate ChosenAt(slabs: seq<Slab>, quantity: nat, k: int) {
    && 0 <= k < |slabs|
    && Applies(slabs[k], quantity)
    && (forall j :: 0 <= j < |slabs| && Applies(slabs[j], quantity) ==>
          slabs[j].min_quantity <= slabs[k].min_quantity)
    && (forall j :: 0 <= j < k && Applies(slabs[j], quantity) ==>
          slabs[j].min_quantity < slabs[k].min_quantity)
  }

  lemma ValidSlabsCons(x: Slab, rest: seq<Slab>, quantity: nat)
    ensures ValidSlabs([x] + rest, quantity) ==
            if Applies(x, quantity) then [x] + ValidSlabs(rest, quantity) else ValidSlabs(rest, quantity)
  {
    assert ([x] + rest)[0] == x && ([x] + rest)[1..] == rest;
  }

  /** Selecting over a list with one more slab in front: the new slab wins
      unless it does not apply or the rest offers a strictly larger minimum. */
  lemma SelectSlabCons(x: Slab, rest: seq<Slab>, quantity: nat)
    ensures SelectSlab([x] + rest, quantity) ==
            var r := SelectSlab(rest, quantity);
            if !Applies(x, quantity) then r
            else if r.Some? && r.value.min_quantity > x.min_quantity then r
            else Some(x)
  {
    ValidSlabsCons(x, rest, quantity);
    var tail := ValidSlabs(rest, quantity);
    if Applies(x, quantity) && tail != [] {
      var valid := [x] + tail;
      assert valid[1..] == tail;
      var k := FirstLargest(tail);
      assert SelectSlab(rest, quantity) == Some(tail[k]);
      assert FirstLargest(valid) == if tail[k].min_quantity > x.min_quantity then k + 1 else 0;
    }
  }

  /** An applying front slab that nothing behind it beats is chosen at 0. */
  lemma HeadChosen(x: Slab, rest: seq<Slab>, quantity: nat)
    requires Applies(x, quantity)
    requires var r := SelectSlab(rest, quantity); !(r.Some? && r.value.min_quantity > x.min_quantity)
    ensures ChosenAt([x] + rest, quantity, 0)
  {
    var slabs := [x] + rest;
    forall j | 0 < j < |slabs| && Applies(slabs[j], quantity)
      ensures slabs[j].min_quantity <= x.min_quantity
    {
      assert slabs[j] == rest[j - 1];
      assert rest[j - 1] in rest;
    }
  }

  /** Ties on the largest minimum go to the slab stored first. */
  lemma {:induction false} SelectSlabIsFirstLargest(slabs: seq<Slab>, quantity: nat)
    requires SelectSlab(slabs, quantity).Some?
    ensures exists k :: ChosenAt(slabs, quantity, k) && slabs[k] == SelectSlab(slabs, quantity).value
  {
    var x, rest := slabs[0], slabs[1..];
    assert slabs == [x] + rest;
    SelectSlabCons(x, rest, quantity);
    var r := SelectSlab(rest, quantity);
    var chosen := SelectSlab(slabs, quantity).value;
    if chosen == x && Applies(x, quantity) && !(r.Some? && r.value.min_quantity > x.min_quantity) {
      HeadChosen(x, rest, quantity);
    } else {
      assert r == Some(chosen);
      SelectSlabIsFirstLargest(rest, quantity);
      var k :| ChosenAt(rest, quantity, k) && rest[k] == chosen;
      assert Applies(x, quantity) ==> x.min_quantity < chosen.min_quantity;
      forall j | 0 <= j < |slabs| && Applies(slabs[j], quantity)
        ensures slabs[j].min_quantity <= chosen.min_quantity
        ensures j < k + 1 ==> slabs[j].min_quantity < chosen.min_quantity
      {
        if j > 0 { assert slabs[j] == rest[j - 1]; }
      }
      assert ChosenAt(slabs, quantity, k + 1);
    }
  }

  /** The priced answer of the price endpoint (without the product id). */
  datatype Quote = Quote(
    quantity: nat,
    base_price: real,
    unit_price: real,
    total_price: real,
    savings: real,
    applied_slab: Option<Slab>,
    currency: Option<string>)

  /** Prices `quantity` units of a product: the applied slab's price per
      unit when a slab applies, the base price otherwise. */
  function PriceFor(p: Product, quantity: nat): (r: Quote)
    ensures r.quantity == quantity && r.base_price == p.base_price && r.currency == p.currency
    ensures r.applied_slab == SelectSlab(p.slab_pricing, quantity)
    ensures r.applied_slab.None? ==> r.unit_price == p.base_price && r.savings == 0.0
    ensures r.applied_slab.Some? ==>
              r.unit_price == r.applied_slab.value.price &&
              r.savings == (p.base_price - r.unit_price) * quantity as real
    ensures r.total_price == r.unit_price * quantity as real
  {
    var applied := SelectSlab(p.slab_pricing, quantity);
    var unit := if applied.Some? then applied.value.price else p.base_price;
    Quote(quantity, p.base_price, unit, unit * quantity as real,
          if applied.Some? then (p.base_price - unit) * quantity as real else 0.0,
          applied, p.currency)
  }

  /** Savings are always what the order would cost at the base price minus
      what it costs. */
  lemma SavingsAgainstBasePrice(p: Product, quantity: nat)
    ensures PriceFor(p, quantity).savings == p.base_price * quantity as real - PriceFor(p, quantity).total_price
  {
    var r := PriceFor(p, quantity);
    if r.applied_slab.Some? {
      calc {
        r.savings;
        (p.base_price - r.unit_price) * quantity as real;
        p.base_price * quantity as real - r.unit_price * quantity as real;
      }
    }
  }

  /** Below every slab's minimum the base price applies and nothing is saved. */
  lemma BelowEveryTier(p: Product, quantity: nat)
    requires forall s :: s in p.slab_pricing ==> quantity < s.min_quantity
    ensures PriceFor(p, quantity).unit_price == p.base_price
    ensures PriceFor(p, quantity).savings == 0.0
    ensures PriceFor(p, quantity).total_price == p.base_price * quantity as real
  {
  }

  /** When no active slab is priced above the base price, a quote never
      costs more than the base price would and never reports negative savings. */
  lemma NoDearerThanBase(p: Product, quantity: nat)
    requires forall s :: s in p.slab_pricing && s.is_active ==> s.price <= p.base_price
    ensures PriceFor(p, quantity).unit_price <= p.base_price
    ensures PriceFor(p, quantity).savings >= 0.0
    ensures PriceFor(p, quantity).total_price <= p.base_price * quantity as real
  {
    SavingsAgainstBasePrice(p, quantity);
    var r := PriceFor(p, quantity);
    if r.applied_slab.Some? {
      NonNegativeProduct(p.base_price - r.unit_price, quantity as real);
    }
  }

  lemma NonNegativeProduct(a: real, b: real)
    requires a >= 0.0 && b >= 0.0
    ensures a * b >= 0.0
  {
  }

  /** A slab priced above the base price is not guarded against: the quote
      then reports negative savings. */
  lemma DearerSlabGivesNegativeSavings()
    ensures var p := Product(None, None, 10.0, None, None, None, None, None, None, None, None,
                             [Slab(1, None, 12.0, true)], None, None, None, None, None);
            PriceFor(p, 2).savings == -4.0
  {
  }

  /** Two tiers, base price 12: 1..9 at 10 and 10+ at 8. */
  lemma TwoTierExample()
    ensures var p := Product(None, None, 12.0, None, None, None, None, None, None, None, None,
                             [Slab(1, Some(9), 10.0, true), Slab(10, None, 8.0, true)],
                             None, None, None, None, None);
            && PriceFor(p, 10).unit_price == 8.0 && PriceFor(p, 10).total_price == 80.0
            && PriceFor(p, 10).savings == 40.0
            && PriceFor(p, 5).unit_price == 10.0 && PriceFor(p, 5).total_price == 50.0
            && PriceFor(p, 5).savings == 10.0
            && PriceFor(p, 0).unit_price == 12.0 && PriceFor(p, 0).total_price == 0.0
            && PriceFor(p, 0).savings == 0.0
  {
    var p := Product(None, None, 12.0, None, None, None, None, None, None, None, None,
                     [Slab(1, Some(9), 10.0, true), Slab(10, None, 8.0, true)],
                     None, None, None, None, None);
    var lo, hi := p.slab_pricing[0], p.slab_pricing[1];
    assert ValidSlabs(p.slab_pricing, 10) == [hi];
    assert ValidSlabs(p.slab_pricing, 5) == [lo];
    assert ValidSlabs(p.slab_pricing, 0) == [];
  }
}
