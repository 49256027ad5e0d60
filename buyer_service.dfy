/** The buyer service: spending and loyalty accumulation, the premium rule,
    account suspension and the wishlist. Each operation reads one buyer and
    writes the new field values back with a store update. */
module BuyerService {
  import opened Base
  import opened Table
  import opened Records
  import opened Storage

  /** `findByUserId`: the first buyer profile of a user, if there is one. */
  function BuyerOf(buyers: seq<Row<Buyer>>, userId: Id): (r: Option<Row<Buyer>>)
    ensures r.None? <==> forall i :: 0 <= i < |buyers| ==> buyers[i].val.user != Some(userId)
    ensures r.Some? ==> exists k :: 0 <= k < |buyers| && buyers[k] == r.value && r.value.val.user == Some(userId) &&
                                    forall j :: 0 <= j < k ==> buyers[j].val.user != Some(userId)
  {
    First(buyers, (b: Buyer) => b.user == Some(userId))
  }

  /** `total_spent`, with a missing value read as 0. */
  function Spent(b: Buyer): real { b.total_spent.GetOr(0.0) }

  function Orders(b: Buyer): int { b.total_orders.GetOr(0) }

  function Points(b: Buyer): int { b.loyalty_points.GetOr(0) }

  /** The buyer after one order of `amount`: the amount is added to the
      spending, one order is counted, and a point is earned per whole unit. */
  function AfterOrder(b: Buyer, amount: real): (r: Buyer)
    ensures Spent(r) == Spent(b) + amount
    ensures Orders(r) == Orders(b) + 1
    ensures Points(r) == Points(b) + amount.Floor
    ensures r.total_spent.Some? && r.total_orders.Some? && r.loyalty_points.Some?
    ensures r.(total_spent := b.total_spent, total_orders := b.total_orders, loyalty_points := b.loyalty_points) == b
  {
    b.(total_spent := Some(Spent(b) + amount),
       total_orders := Some(Orders(b) + 1),
       loyalty_points := Some(Points(b) + amount.Floor))
  }

  /** Two orders add up: the spending and order count of two orders in a row
      are those of their sum, while splitting an order never earns more
      points than placing it whole. */
  lemma TwoOrders(b: Buyer, x: real, y: real)
    ensures Spent(AfterOrder(AfterOrder(b, x), y)) == Spent(b) + x + y
    ensures Orders(AfterOrder(AfterOrder(b, x), y)) == Orders(b) + 2
    ensures Points(AfterOrder(AfterOrder(b, x), y)) <= Points(AfterOrder(b, x + y))
  {
    FloorsAdd(x, y);
  }

  lemma FloorsAdd(x: real, y: real)
    ensures x.Floor + y.Floor <= (x + y).Floor
  {
    assert x.Floor as real <= x && y.Floor as real <= y;
    assert (x.Floor + y.Floor) as real <= x + y;
  }

  /** The premium criterion: 1000 spent or 20 orders (a missing total is 0). */
  predicate Qualifies(b: Buyer) {
    Spent(b) >= 1000.0 || Orders(b) >= 20
  }

  /** A buyer who qualifies keeps qualifying after any further order of a
      non-negative amount. */
  lemma QualifyingIsKept(b: Buyer, amount: real)
    requires Qualifies(b) && amount >= 0.0
    ensures Qualifies(AfterOrder(b, amount))
  {
  }

  /** The buyer `checkPremiumEligibility` leaves: premium is switched on for
      a qualifying buyer and never switched off. */
  function Promoted(b: Buyer): (r: Buyer)
    ensures r.is_premium <==> b.is_premium || Qualifies(b)
    ensures b.is_premium ==> r == b
    ensures r == b.(is_premium := r.is_premium)
  {
    if Qualifies(b) && !b.is_premium then b.(is_premium := true) else b
  }

  lemma PromotedIdempotent(b: Buyer)
    ensures Promoted(Promoted(b)) == Promoted(b)
  {
  }

  /** A wishlist holds each product at most once. */
  predicate Distinct(w: seq<Id>) {
    forall i, j :: 0 <= i < j < |w| ==> w[i] != w[j]
  }

  /** `addToWishlist`'s list: the product is pushed at the end unless present. */
  function Added(w: seq<Id>, productId: Id): (r: seq<Id>)
    ensures productId in r
    ensures forall x :: x in r <==> x in w || x == productId
    ensures productId in w ==> r == w
    ensures productId !in w ==> r == w + [productId]
    ensures Distinct(w) ==> Distinct(r)
  {
    if productId in w then w else w + [productId]
  }

  lemma AddedIdempotent(w: seq<Id>, productId: Id)
    ensures Added(Added(w, productId), productId) == Added(w, productId)
  {
  }

  /** `removeFromWishlist`'s list: every occurrence of the product removed,
      the other entries kept in their order. */
  function Removed(w: seq<Id>, productId: Id): (r: seq<Id>)
    ensures |r| <= |w|
    ensures forall x :: x in r <==> x in w && x != productId
  {
    if w == [] then []
    else if w[0] == productId then Removed(w[1..], productId)
    else [w[0]] + Removed(w[1..], productId)
  }

  /** Removing from a concatenation removes from each part, so the order of
      the remaining entries is the order they had. */
  lemma {:induction false} RemovedAppend(a: seq<Id>, b: seq<Id>, productId: Id)
    ensures Removed(a + b, productId) == Removed(a, productId) + Removed(b, productId)
  {
    if a == [] {
      assert a + b == b;
    } else {
      var ab := a + b;
      assert ab[0] == a[0] && ab[1..] == a[1..] + b;
      RemovedAppend(a[1..], b, productId);
      if a[0] != productId {
        calc {
          Removed(ab, productId);
          [a[0]] + Removed(ab[1..], productId);
          [a[0]] + (Removed(a[1..], productId) + Removed(b, productId));
          ([a[0]] + Removed(a[1..], productId)) + Removed(b, productId);
        }
      }
    }
  }

  /** Removing a product that is not listed changes nothing. */
  lemma {:induction false} RemovedAbsent(w: seq<Id>, productId: Id)
    requires productId !in w
    ensures Removed(w, productId) == w
  {
    if w != [] {
      assert w == [w[0]] + w[1..];
      RemovedAbsent(w[1..], productId);
    }
  }

  /** Adding a product that was not listed and removing it again gives the
      wishlist back. */
  lemma RemoveUndoesAdd(w: seq<Id>, productId: Id)
    requires productId !in w
    ensures Removed(Added(w, productId), productId) == w
  {
    RemovedAppend(w, [productId], productId);
    RemovedAbsent(w, productId);
    assert Removed([productId], productId) == [];
  }

  /** Removing keeps a wishlist free of duplicates. */
  lemma {:induction false} RemovedDistinct(w: seq<Id>, productId: Id)
    requires Distinct(w)
    ensures Distinct(Removed(w, productId))
  {
    if w != [] {
      var rest := w[1..];
      assert Distinct(rest);
      RemovedDistinct(rest, productId);
      if w[0] != productId {
        var r := Removed(rest, productId);
        assert w[0] !in rest;
        assert w[0] !in r;
        var s := [w[0]] + r;
        forall i, j | 0 <= i < j < |s| ensures s[i] != s[j] {
          if i == 0 { assert s[j] == r[j - 1]; assert r[j - 1] in r; }
          else { assert s[i] == r[i - 1] && s[j] == r[j - 1]; }
        }
      }
    }
  }

  /** `updateSpending`: throws for a missing buyer and changes nothing; else
      writes the accumulated totals. */
  method UpdateSpending(db: Store, buyerId: Id, amount: real) returns (r: Result<Buyer>)
    requires db.Valid()
    modifies db`buyers
    ensures db.Valid()
    ensures Find(old(db.buyers), buyerId).None? ==> r == Err(Thrown) && db.buyers == old(db.buyers)
    ensures Find(old(db.buyers), buyerId).Some? ==>
              var b := AfterOrder(Find(old(db.buyers), buyerId).value, amount);
              r == Ok(b) && db.buyers == Put(old(db.buyers), buyerId, b)
  {
    var buyer := Find(db.buyers, buyerId);
    if buyer.None? {
      return Err(Thrown);
    }
    var updated := db.UpdateBuyer(buyerId, (b: Buyer) => AfterOrder(b, amount));
    r := Ok(updated.value);
  }

  /** `checkPremiumEligibility`: throws for a missing buyer; writes only when
      the flag has to be switched on, and answers with the buyer either way. */
  method CheckPremiumEligibility(db: Store, buyerId: Id) returns (r: Result<Buyer>)
    requires db.Valid()
    modifies db`buyers
    ensures db.Valid()
    ensures Find(old(db.buyers), buyerId).None? ==> r == Err(Thrown) && db.buyers == old(db.buyers)
    ensures Find(old(db.buyers), buyerId).Some? ==>
              var b := Find(old(db.buyers), buyerId).value;
              && r == Ok(Promoted(b))
              && db.buyers == if Promoted(b) == b then old(db.buyers) else Put(old(db.buyers), buyerId, Promoted(b))
  {
    var buyer := Find(db.buyers, buyerId);
    if buyer.None? {
      return Err(Thrown);
    }
    var b := buyer.value;
    if Qualifies(b) && !b.is_premium {
      var updated := db.UpdateBuyer(buyerId, (x: Buyer) => x.(is_premium := true));
      return Ok(updated.value);
    }
    r := Ok(b);
  }

  /** `suspendAccount`: sets the account status, nothing else; a missing
      buyer is answered with null and nothing is written. */
  method SuspendAccount(db: Store, buyerId: Id) returns (r: Option<Buyer>)
    requires db.Valid()
    modifies db`buyers
    ensures db.Valid()
    ensures Find(old(db.buyers), buyerId).None? ==> r.None? && db.buyers == old(db.buyers)
    ensures Find(old(db.buyers), buyerId).Some? ==>
              var b := Find(old(db.buyers), buyerId).value.(account_status := AccountStatus.Suspended);
              r == Some(b) && db.buyers == Put(old(db.buyers), buyerId, b)
  {
    r := db.UpdateBuyer(buyerId, (b: Buyer) => b.(account_status := AccountStatus.Suspended));
  }

  /** `reactivateAccount`: sets the account status back to active, nothing else. */
  method ReactivateAccount(db: Store, buyerId: Id) returns (r: Option<Buyer>)
    requires db.Valid()
    modifies db`buyers
    ensures db.Valid()
    ensures Find(old(db.buyers), buyerId).None? ==> r.None? && db.buyers == old(db.buyers)
    ensures Find(old(db.buyers), buyerId).Some? ==>
              var b := Find(old(db.buyers), buyerId).value.(account_status := Active);
              r == Some(b) && db.buyers == Put(old(db.buyers), buyerId, b)
  {
    r := db.UpdateBuyer(buyerId, (b: Buyer) => b.(account_status := Active));
  }

  /** `addToWishlist`: throws for a missing buyer; writes only when the
      product is not listed yet. */
  method AddToWishlist(db: Store, buyerId: Id, productId: Id) returns (r: Result<Buyer>)
    requires db.Valid()
    modifies db`buyers
    ensures db.Valid()
    ensures Find(old(db.buyers), buyerId).None? ==> r == Err(Thrown) && db.buyers == old(db.buyers)
    ensures Find(old(db.buyers), buyerId).Some? ==>
              var b := Find(old(db.buyers), buyerId).value;
              var b' := b.(wishlist := Added(b.wishlist, productId));
              && r == Ok(b')
              && db.buyers == if productId in b.wishlist then old(db.buyers) else Put(old(db.buyers), buyerId, b')
  {
    var buyer := Find(db.buyers, buyerId);
    if buyer.None? {
      return Err(Thrown);
    }
    var current := buyer.value.wishlist;
    if productId !in current {
      current := current + [productId];
      var updated := db.UpdateBuyer(buyerId, (b: Buyer) => b.(wishlist := current));
      return Ok(updated.value);
    }
    r := Ok(buyer.value);
  }

  /** `removeFromWishlist`: throws for a missing buyer; else writes the list
      without the product. */
  method RemoveFromWishlist(db: Store, buyerId: Id, productId: Id) returns (r: Result<Buyer>)
    requires db.Valid()
    modifies db`buyers
    ensures db.Valid()
    ensures Find(old(db.buyers), buyerId).None? ==> r == Err(Thrown) && db.buyers == old(db.buyers)
    ensures Find(old(db.buyers), buyerId).Some? ==>
              var b := Find(old(db.buyers), buyerId).value;
              var b' := b.(wishlist := Removed(b.wishlist, productId));
              r == Ok(b') && db.buyers == Put(old(db.buyers), buyerId, b')
  {
    var buyer := Find(db.buyers, buyerId);
    if buyer.None? {
      return Err(Thrown);
    }
    var updated := db.UpdateBuyer(buyerId, (b: Buyer) => b.(wishlist := Removed(b.wishlist, productId)));
    r := Ok(updated.value);
  }
}
