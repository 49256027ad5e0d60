/** The buyer controller: creation defaults and the caller's own profile. */
module BuyerController {
  import opened Base
  import opened Table
  import opened Records
  import opened Storage
  import opened BuyerService

  /** The in-place defaults `create` gives the request body: the caller as
      owner when none is named, and the creation time as `customer_since`. */
  method ApplyBuyerDefaults(data: Buyer, user: Option<Caller>, now: Timestamp) returns (d: Buyer)
    ensures d.user == if user.Some? && data.user.None? then Some(user.value.id) else data.user
    ensures d.customer_since == if data.customer_since.None? then Some(now) else data.customer_since
    ensures d == data.(user := d.user, customer_since := d.customer_since)
  {
    d := data;
    if user.Some? && d.user.None? {
      d := d.(user := Some(user.value.id));
    }
    if d.customer_since.None? {
      d := d.(customer_since := Some(now));
    }
  }

  /** `create`: stores the defaulted body under a fresh id. */
  method Create(db: Store, user: Option<Caller>, data: Buyer, now: Timestamp) returns (id: Id)
    requires db.Valid()
    modifies db`buyers, db`nextId
    ensures db.Valid()
    ensures id == old(db.nextId) && |db.buyers| == |old(db.buyers)| + 1
    ensures db.buyers[..|old(db.buyers)|] == old(db.buyers) && db.buyers[|old(db.buyers)|].id == id
    ensures var b := db.buyers[|old(db.buyers)|].val;
            && b == data.(user := b.user, customer_since := b.customer_since)
            && (data.user.Some? ==> b.user == data.user)
            && (data.user.None? && user.Some? ==> b.user == Some(user.value.id))
            && (data.user.None? && user.None? ==> b.user.None?)
            && b.customer_since == (if data.customer_since.None? then Some(now) else data.customer_since)
  {
    var d := ApplyBuyerDefaults(data, user, now);
    id := db.CreateBuyer(d);
  }

  /** `getMyProfile`: unauthorized without a caller, not found without a
      profile, else the caller's first buyer profile. */
  method GetMyProfile(db: Store, user: Option<Caller>) returns (r: Result<Row<Buyer>>)
    ensures user.None? ==> r == Err(Unauthorized)
    ensures user.Some? ==> (r == Err(NotFound) <==> forall i :: 0 <= i < |db.buyers| ==> db.buyers[i].val.user != Some(user.value.id))
    ensures r.Ok? ==> user.Some? && r.value in db.buyers && r.value.val.user == Some(user.value.id)
    ensures r.Ok? ==> Some(r.value) == BuyerOf(db.buyers, user.value.id)
    ensures user.Some? && BuyerOf(db.buyers, user.value.id).Some? ==>
              r == Ok(BuyerOf(db.buyers, user.value.id).value)
    ensures r.Err? ==> r.error == Unauthorized || r.error == NotFound
  {
    if user.None? {
      return Err(Unauthorized);
    }
    var found := BuyerOf(db.buyers, user.value.id);
    if found.None? {
      return Err(NotFound);
    }
    r := Ok(found.value);
  }

  /** Every field the request carries is stored as sent. */
  predicate Carries(r: Buyer, data: BuyerPatch) {
    && (data.user.Some? ==> r.user == data.user)
    && (data.first_name.Some? ==> r.first_name == data.first_name.value)
    && (data.last_name.Some? ==> r.last_name == data.last_name.value)
    && (data.display_name.Some? ==> r.display_name == data.display_name.value)
    && (data.phone.Some? ==> r.phone == data.phone)
    && (data.customer_since.Some? ==> r.customer_since == data.customer_since)
    && (data.account_status.Some? ==> r.account_status == data.account_status.value)
    && (data.total_spent.Some? ==> r.total_spent == data.total_spent)
    && (data.total_orders.Some? ==> r.total_orders == data.total_orders)
    && (data.loyalty_points.Some? ==> r.loyalty_points == data.loyalty_points)
    && (data.is_premium.Some? ==> r.is_premium == data.is_premium.value)
    && (data.newsletter_subscribed.Some? ==> r.newsletter_subscribed == data.newsletter_subscribed.value)
    && (data.marketing_consent.Some? ==> r.marketing_consent == data.marketing_consent.value)
    && (data.wishlist.Some? ==> r.wishlist == data.wishlist.value)
  }

  /** Every field the request leaves out keeps its stored value. */
  predicate KeepsUnsent(r: Buyer, b: Buyer, data: BuyerPatch) {
    && (data.user.None? ==> r.user == b.user)
    && (data.first_name.None? ==> r.first_name == b.first_name)
    && (data.last_name.None? ==> r.last_name == b.last_name)
    && (data.display_name.None? ==> r.display_name == b.display_name)
    && (data.phone.None? ==> r.phone == b.phone)
    && (data.customer_since.None? ==> r.customer_since == b.customer_since)
    && (data.account_status.None? ==> r.account_status == b.account_status)
    && (data.total_spent.None? ==> r.total_spent == b.total_spent)
    && (data.total_orders.None? ==> r.total_orders == b.total_orders)
    && (data.loyalty_points.None? ==> r.loyalty_points == b.loyalty_points)
    && (data.is_premium.None? ==> r.is_premium == b.is_premium)
    && (data.newsletter_subscribed.None? ==> r.newsletter_subscribed == b.newsletter_subscribed)
    && (data.marketing_consent.None? ==> r.marketing_consent == b.marketing_consent)
    && (data.wishlist.None? ==> r.wishlist == b.wishlist)
  }

  /** The stored buyer with each field the request carries replaced. */
  function Patched(b: Buyer, data: BuyerPatch): (r: Buyer)
    ensures Carries(r, data)
    ensures KeepsUnsent(r, b, data)
    ensures data == BuyerPatch(None, None, None, None, None, None, None, None, None, None, None, None, None, None) ==> r == b
  {
    Buyer(
      data.user.Or(b.user),
      data.first_name.GetOr(b.first_name),
      data.last_name.GetOr(b.last_name),
      data.display_name.GetOr(b.display_name),
      data.phone.Or(b.phone),
      data.customer_since.Or(b.customer_since),
      data.account_status.GetOr(b.account_status),
      data.total_spent.Or(b.total_spent),
      data.total_orders.Or(b.total_orders),
      data.loyalty_points.Or(b.loyalty_points),
      data.is_premium.GetOr(b.is_premium),
      data.newsletter_subscribed.GetOr(b.newsletter_subscribed),
      data.marketing_consent.GetOr(b.marketing_consent),
      data.wishlist.GetOr(b.wishlist))
  }

  /** Applying the same request twice is applying it once. */
  lemma PatchedIdempotent(b: Buyer, data: BuyerPatch)
    ensures Patched(Patched(b, data), data) == Patched(b, data)
  {
  }

  /** `updateMyProfile`: unauthorized without a caller and not found without
      a profile, changing nothing; else the caller's first buyer profile,
      and only it, is updated with the request. */
  method UpdateMyProfile(db: Store, user: Option<Caller>, data: BuyerPatch) returns (r: Result<Buyer>)
    requires db.Valid()
    modifies db`buyers
    ensures db.Valid()
    ensures user.None? ==> r == Err(Unauthorized)
    ensures user.Some? && BuyerOf(old(db.buyers), user.value.id).None? ==> r == Err(NotFound)
    ensures user.Some? && BuyerOf(old(db.buyers), user.value.id).Some? ==> r.Ok?
    ensures r.Err? ==> db.buyers == old(db.buyers)
    ensures r.Ok? ==>
              && user.Some? && BuyerOf(old(db.buyers), user.value.id).Some?
              && var first := BuyerOf(old(db.buyers), user.value.id).value;
                 r == Ok(Patched(first.val, data)) &&
                 db.buyers == Put(old(db.buyers), first.id, Patched(first.val, data))
  {
    if user.None? {
      return Err(Unauthorized);
    }
    var buyers := BuyerOf(db.buyers, user.value.id);
    if buyers.None? {
      return Err(NotFound);
    }
    var buyerId := buyers.value.id;
    FindAt(db.buyers, IndexOf(db.buyers, buyers.value));
    var updated := db.UpdateBuyer(buyerId, (b: Buyer) => Patched(b, data));
    r := Ok(updated.value);
  }
}
