/** The product controller: role-based creation with its commission, SKU and
    inventory defaults, linking an influencer product to a vendor original,
    the slab price endpoint and the owner filters. */
module ProductController {
  import opened Base
  import opened Table
  import opened Records
  import opened Storage
  import opened Pricing

  predicate HasRole(user: Caller, name: string) {
    user.role == Some(name)
  }

  /** The caller's vendor profiles, first one first (findMany filtered by user). */
  function VendorOf(vendors: seq<Row<Vendor>>, userId: Id): Option<Row<Vendor>> {
    First(vendors, (v: Vendor) => v.user == Some(userId))
  }

  function InfluencerOf(influencers: seq<Row<Influencer>>, userId: Id): Option<Row<Influencer>> {
    First(influencers, (i: Influencer) => i.user == Some(userId))
  }

  ghost predicate OwnsVendor(vendors: seq<Row<Vendor>>, userId: Id) {
    exists i :: 0 <= i < |vendors| && vendors[i].val.user == Some(userId)
  }

  ghost predicate OwnsInfluencer(influencers: seq<Row<Influencer>>, userId: Id) {
    exists i :: 0 <= i < |influencers| && influencers[i].val.user == Some(userId)
  }

  /** The owner fields the caller's role dictates (creatorData). */
  datatype Creator = Creator(created_by_type: CreatorType, vendor: Option<Id>, influencer: Option<Id>)

  /** Exactly one owner is set, and it is the one the creator type names. */
  predicate SingleOwner(created_by_type: Option<CreatorType>, vendor: Option<Id>, influencer: Option<Id>) {
    || (created_by_type == Some(ByVendor) && vendor.Some? && influencer.None?)
    || (created_by_type == Some(ByInfluencer) && influencer.Some? && vendor.None?)
  }

  /** What the role dispatch of `create` settles before anything is written:
      the owner fields and, for a linking influencer, the original product. */
  datatype Plan = Plan(creator: Creator, original: Option<Product>)

  /** The checks of `create` in their order: authenticated, Vendor or
      Influencer role, an own profile, and a resolvable original product. */
  function CreatePlan(vendors: seq<Row<Vendor>>, influencers: seq<Row<Influencer>>,
                      products: seq<Row<Product>>, user: Option<Caller>, data: Product): (r: Result<Plan>)
    ensures user.None? ==> r == Err(Unauthorized)
    ensures user.Some? && !HasRole(user.value, "Vendor") && !HasRole(user.value, "Influencer") ==>
              r == Err(Forbidden)
    ensures r.Err? && user.Some? && (HasRole(user.value, "Vendor") || HasRole(user.value, "Influencer")) ==>
              r == Err(BadRequest)
    ensures r.Ok? <==>
              && user.Some?
              && ((HasRole(user.value, "Vendor") && OwnsVendor(vendors, user.value.id))
                  || (HasRole(user.value, "Influencer") && OwnsInfluencer(influencers, user.value.id)
                      && (data.original_product.Some? ==> Find(products, data.original_product.value).Some?)))
    ensures r.Ok? ==> SingleOwner(Some(r.value.creator.created_by_type), r.value.creator.vendor, r.value.creator.influencer)
    ensures r.Ok? && HasRole(user.value, "Vendor") ==>
              && r.value.creator.created_by_type == ByVendor
              && Some(r.value.creator.vendor.value) == (var v := VendorOf(vendors, user.value.id); if v.Some? then Some(v.value.id) else None)
              && r.value.original.None?
    ensures r.Ok? && HasRole(user.value, "Influencer") ==>
              && r.value.creator.created_by_type == ByInfluencer
              && Some(r.value.creator.influencer.value) == (var i := InfluencerOf(influencers, user.value.id); if i.Some? then Some(i.value.id) else None)
              && r.value.original == if data.original_product.Some? then Find(products, data.original_product.value) else None
  {
    if user.None? then Err(Unauthorized)
    else if HasRole(user.value, "Vendor") then
      var v := VendorOf(vendors, user.value.id);
      if v.None? then Err(BadRequest)
      else Ok(Plan(Creator(ByVendor, Some(v.value.id), None), None))
    else if HasRole(user.value, "Influencer") then
      var i := InfluencerOf(influencers, user.value.id);
      if i.None? then Err(BadRequest)
      else if data.original_product.None? then Ok(Plan(Creator(ByInfluencer, None, Some(i.value.id)), None))
      else
        var original := Find(products, data.original_product.value);
        if original.None? then Err(BadRequest)
        else Ok(Plan(Creator(ByInfluencer, None, Some(i.value.id)), original))
    else Err(Forbidden)
  }

  /** The settings a linking influencer's product inherits: the original's
      settings, with the rate replaced only by a truthy request rate. */
  function Inherited(data: Product, original: Option<Product>): (r: Option<CommissionSettings>)
    ensures r.None? <==> original.None? || original.value.commission_settings.None?
    ensures r.Some? ==>
              var cs := original.value.commission_settings.value;
              && r.value.commission_type == cs.commission_type
              && r.value.minimum_sale_amount == cs.minimum_sale_amount
              && r.value.is_commission_enabled == cs.is_commission_enabled
              && (RealTruthy(data.influencer_commission_rate) ==> r.value.commission_rate == data.influencer_commission_rate)
              && (!RealTruthy(data.influencer_commission_rate) ==> r.value.commission_rate == cs.commission_rate)
  {
    if original.None? || original.value.commission_settings.None? then None
    else
      var cs := original.value.commission_settings.value;
      Some(if RealTruthy(data.influencer_commission_rate)
           then cs.(commission_rate := data.influencer_commission_rate) else cs)
  }

  /** The settings a vendor product gets when the request names none. */
  function DefaultCommission(data: Product): CommissionSettings {
    CommissionSettings(Some(RealOr(data.influencer_commission_rate, 10.0)), Some(Percentage), Some(0.0), Some(true))
  }

  /** The commission settings `create` stores. The decisions test the
      request body's created_by_type, not the one the role dictates. */
  function CommissionAfterCreate(data: Product, inherited: Option<CommissionSettings>): (cs: Option<CommissionSettings>)
    ensures data.created_by_type == Some(ByInfluencer) ==> cs.None?
    ensures data.created_by_type == Some(ByVendor) ==> cs.Some?
    ensures data.created_by_type != Some(ByInfluencer) && inherited.Some? ==> cs == inherited
    ensures data.created_by_type == Some(ByVendor) && inherited.None? ==>
              cs == if data.commission_settings.Some? then data.commission_settings else Some(DefaultCommission(data))
    ensures data.created_by_type.None? && inherited.None? ==> cs == data.commission_settings
    ensures cs.Some? && cs.value.commission_rate.Some? && RealTruthy(data.influencer_commission_rate) &&
            data.commission_settings.None? && inherited.None? ==>
              cs.value.commission_rate == data.influencer_commission_rate
  {
    var settings := if inherited.Some? then inherited else data.commission_settings;
    if data.created_by_type == Some(ByInfluencer) then None
    else if data.created_by_type == Some(ByVendor) && settings.None? then Some(DefaultCommission(data))
    else settings
  }

  /** `VND` when the request body says vendor, `INF` otherwise. */
  function SkuPrefix(data: Product): (prefix: string)
    ensures |prefix| == 3
    ensures prefix == "VND" <==> data.created_by_type == Some(ByVendor)
  {
    if data.created_by_type == Some(ByVendor) then "VND" else "INF"
  }

  /** The SKU `create` stores: a supplied (truthy) one, else prefix-timestamp. */
  function SkuAfterCreate(data: Product, now: Timestamp): (sku: Option<string>)
    ensures sku.Some?
    ensures StrTruthy(data.sku) ==> sku == data.sku
    ensures !StrTruthy(data.sku) ==>
              && |sku.value| == 4 + |Decimal(now)|
              && sku.value[..4] == SkuPrefix(data) + "-"
              && sku.value[4..] == Decimal(now)
  {
    if StrTruthy(data.sku) then data.sku
    else
      var s := SkuPrefix(data) + "-" + Decimal(now);
      assert s[..4] == SkuPrefix(data) + "-" && s[4..] == Decimal(now);
      Some(s)
  }

  /** Two generated SKUs taken at different times differ, whatever their prefixes. */
  lemma GeneratedSkusDiffer(a: Product, b: Product, s: Timestamp, t: Timestamp)
    requires !StrTruthy(a.sku) && !StrTruthy(b.sku) && s != t
    ensures SkuAfterCreate(a, s) != SkuAfterCreate(b, t)
  {
    if SkuAfterCreate(a, s) == SkuAfterCreate(b, t) {
      DecimalInjective(s, t);
    }
  }

  /** Inventory tracked with a falsy stock starts at stock 0, out of stock. */
  function InventoryAfterCreate(data: Product): (inv: Option<Inventory>)
    ensures inv.None? <==> data.inventory.None?
    ensures inv.Some? ==> inv.value.track_inventory == data.inventory.value.track_inventory
    ensures inv.Some? && inv.value.track_inventory == Some(true) ==> IntTruthy(inv.value.stock_quantity) || inv.value.stock_quantity == Some(0)
    ensures inv.Some? && inv.value.track_inventory == Some(true) && !IntTruthy(data.inventory.value.stock_quantity) ==>
              inv.value.stock_quantity == Some(0) && inv.value.stock_status == Some(OutOfStock)
    ensures inv.Some? && (inv.value.track_inventory != Some(true) || IntTruthy(data.inventory.value.stock_quantity)) ==>
              inv == data.inventory
  {
    if data.inventory.Some? && data.inventory.value.track_inventory == Some(true) &&
       !IntTruthy(data.inventory.value.stock_quantity)
    then Some(data.inventory.value.(stock_quantity := Some(0), stock_status := Some(OutOfStock)))
    else data.inventory
  }

  /** The product `create` stores: the request body with its defaults applied
      and the role's owner fields spread over it last. */
  function ShapedProduct(data: Product, creator: Creator, inherited: Option<CommissionSettings>, now: Timestamp): (p: Product)
    ensures p.created_by_type == Some(creator.created_by_type)
    ensures p.vendor == creator.vendor && p.influencer == creator.influencer
    ensures p.(commission_settings := data.commission_settings, sku := data.sku, inventory := data.inventory,
               created_by_type := data.created_by_type, vendor := data.vendor, influencer := data.influencer) == data
  {
    data.(commission_settings := CommissionAfterCreate(data, inherited),
          sku := SkuAfterCreate(data, now),
          inventory := InventoryAfterCreate(data),
          created_by_type := Some(creator.created_by_type),
          vendor := creator.vendor,
          influencer := creator.influencer)
  }

  /** The in-place edits `create` makes to the request body, in their order. */
  method ApplyCreateDefaults(data: Product, creator: Creator, original: Option<Product>, now: Timestamp)
    returns (d: Product)
    ensures d == ShapedProduct(data, creator, Inherited(data, original), now)
  {
    d := data;
    if original.Some? && original.value.commission_settings.Some? {
      d := d.(commission_settings := original.value.commission_settings);
      if RealTruthy(d.influencer_commission_rate) {
        d := d.(commission_settings := Some(d.commission_settings.value.(commission_rate := d.influencer_commission_rate)));
      }
    }
    if d.created_by_type == Some(ByVendor) && d.commission_settings.None? {
      d := d.(commission_settings := Some(CommissionSettings(
        Some(RealOr(d.influencer_commission_rate, 10.0)), Some(Percentage), Some(0.0), Some(true))));
    }
    if d.created_by_type == Some(ByInfluencer) {
      d := d.(commission_settings := None);
    }
    if !StrTruthy(d.sku) {
      var prefix := if d.created_by_type == Some(ByVendor) then "VND" else "INF";
      d := d.(sku := Some(prefix + "-" + Decimal(now)));
    }
    if d.inventory.Some? && d.inventory.value.track_inventory == Some(true) && !IntTruthy(d.inventory.value.stock_quantity) {
      d := d.(inventory := Some(d.inventory.value.(stock_quantity := Some(0), stock_status := Some(OutOfStock))));
    }
    d := d.(created_by_type := Some(creator.created_by_type), vendor := creator.vendor, influencer := creator.influencer);
  }

  /** `create`: answers with the dispatch error and writes nothing, or stores
      the shaped product under a fresh id. */
  method Create(db: Store, user: Option<Caller>, data: Product, now: Timestamp) returns (r: Result<Id>)
    requires db.Valid()
    modifies db`products, db`nextId
    ensures db.Valid()
    ensures var plan := CreatePlan(db.vendors, db.influencers, old(db.products), user, data);
            match plan
            case Err(e) => r == Err(e) && db.products == old(db.products) && db.nextId == old(db.nextId)
            case Ok(pl) =>
              && r == Ok(old(db.nextId))
              && db.products == old(db.products) +
                   [Row(r.value, ShapedProduct(data, pl.creator, Inherited(data, pl.original), now))]
    ensures r.Ok? ==>
              var p := db.products[|db.products| - 1].val;
              SingleOwner(p.created_by_type, p.vendor, p.influencer)
  {
    var plan := CreatePlan(db.vendors, db.influencers, db.products, user, data);
    if plan.Err? {
      return Err(plan.error);
    }
    var d := ApplyCreateDefaults(data, plan.value.creator, plan.value.original, now);
    var id := db.CreateProduct(d);
    r := Ok(id);
  }

  /** The role decides the owner, but the body decides the commission and
      SKU rules: an Influencer caller whose body says 'vendor' stores an
      influencer product with vendor commission settings and a VND SKU. */
  lemma BodyTypeDecidesDefaults()
    ensures var data := Product(None, None, 5.0, None, None, Some(ByVendor), None, None, None, None, None,
                                [], None, None, None, None, None);
            var p := ShapedProduct(data, Creator(ByInfluencer, None, Some(7)), None, 42);
            && p.created_by_type == Some(ByInfluencer)
            && p.commission_settings == Some(CommissionSettings(Some(10.0), Some(Percentage), Some(0.0), Some(true)))
            && p.sku == Some("VND-42")
  {
    assert Decimal(4) == "4" && Decimal(42) == "42";
    assert "VND" + "-" + "42" == "VND-42";
  }

  /** Every field a link request carries is stored exactly as sent. */
  predicate Carries(p: Product, data: ProductPatch) {
    && (data.name.Some? ==> p.name == data.name)
    && (data.description.Some? ==> p.description == data.description)
    && (data.base_price.Some? ==> p.base_price == data.base_price.value)
    && (data.currency.Some? ==> p.currency == data.currency)
    && (data.product_type.Some? ==> p.product_type == data.product_type)
    && (data.created_by_type.Some? ==> p.created_by_type == data.created_by_type)
    && (data.vendor.Some? ==> p.vendor == data.vendor)
    && (data.influencer.Some? ==> p.influencer == data.influencer)
    && (data.original_product.Some? ==> p.original_product == data.original_product)
    && (data.categories.Some? ==> p.categories == data.categories)
    && (data.tags.Some? ==> p.tags == data.tags)
    && (data.slab_pricing.Some? ==> p.slab_pricing == data.slab_pricing.value)
    && (data.influencer_commission_rate.Some? ==> p.influencer_commission_rate == data.influencer_commission_rate)
    && (data.commission_settings.Some? ==> p.commission_settings == data.commission_settings)
    && (data.sku.Some? ==> p.sku == data.sku)
    && (data.inventory.Some? ==> p.inventory == data.inventory)
    && (data.shipping.Some? ==> p.shipping == data.shipping)
  }

  /** `{...lit, ...data}`: each present request field replaces the computed one. */
  function Spread(lit: Product, data: ProductPatch): Product {
    Product(
      if data.name.Some? then data.name else lit.name,
      if data.description.Some? then data.description else lit.description,
      if data.base_price.Some? then data.base_price.value else lit.base_price,
      if data.currency.Some? then data.currency else lit.currency,
      if data.product_type.Some? then data.product_type else lit.product_type,
      if data.created_by_type.Some? then data.created_by_type else lit.created_by_type,
      if data.vendor.Some? then data.vendor else lit.vendor,
      if data.influencer.Some? then data.influencer else lit.influencer,
      if data.original_product.Some? then data.original_product else lit.original_product,
      if data.categories.Some? then data.categories else lit.categories,
      if data.tags.Some? then data.tags else lit.tags,
      if data.slab_pricing.Some? then data.slab_pricing.value else lit.slab_pricing,
      if data.influencer_commission_rate.Some? then data.influencer_commission_rate else lit.influencer_commission_rate,
      if data.commission_settings.Some? then data.commission_settings else lit.commission_settings,
      if data.sku.Some? then data.sku else lit.sku,
      if data.inventory.Some? then data.inventory else lit.inventory,
      if data.shipping.Some? then data.shipping else lit.shipping)
  }

  /** The product `linkProduct` stores for an influencer linking to `original`:
      a copy of the original's catalogue data owned by the influencer, the
      commission rate resolved as request rate, else the original's, else 10,
      and then every field of the request spread over it. The original is
      loaded without its categories relation and its shipping component, so
      neither is copied: both stay unset unless the request carries them. */
  function LinkedProduct(data: ProductPatch, original: Product, originalId: Id,
                         influencerId: Id, displayName: string): (p: Product)
    ensures Carries(p, data)
    ensures data.name.None? ==> p.name == Some(Interpolate(original.name) + " (by " + displayName + ")")
    ensures data.description.None? ==> p.description == original.description
    ensures data.base_price.None? ==> p.base_price == original.base_price
    ensures data.currency.None? ==> p.currency == original.currency
    ensures data.product_type.None? ==> p.product_type == original.product_type
    ensures data.tags.None? ==> p.tags == original.tags
    ensures data.created_by_type.None? ==> p.created_by_type == Some(ByInfluencer)
    ensures data.vendor.None? ==> p.vendor.None?
    ensures data.influencer.None? ==> p.influencer == Some(influencerId)
    ensures data.original_product.None? ==> p.original_product == Some(originalId)
    ensures data.slab_pricing.None? ==> p.slab_pricing == original.slab_pricing
    ensures data.influencer_commission_rate.None? ==>
              p.influencer_commission_rate == Some(RealOr(original.influencer_commission_rate, 10.0))
    ensures data.commission_settings.None? ==> (p.commission_settings.None? <==> original.commission_settings.None?)
    ensures data.commission_settings.None? && original.commission_settings.Some? ==>
              var cs := original.commission_settings.value;
              p.commission_settings == Some(cs.(commission_rate := Some(
                if RealTruthy(data.influencer_commission_rate) then data.influencer_commission_rate.value
                else RealOr(cs.commission_rate, 10.0))))
    ensures data.inventory.None? ==> p.inventory == Some(Inventory(Some(false), None, Some(InStock)))
    ensures data.sku.None? ==> p.sku.None?
    ensures data.categories.None? ==> p.categories.None?
    ensures data.shipping.None? ==> p.shipping.None?
  {
    var lit := Product(
      Some(if StrTruthy(data.name) then data.name.value
           else Interpolate(original.name) + " (by " + displayName + ")"),
      if StrTruthy(data.description) then data.description else original.description,
      RealOr(data.base_price, original.base_price),
      original.currency,
      original.product_type,
      Some(ByInfluencer),
      None,
      Some(influencerId),
      Some(originalId),
      None,
      original.tags,
      original.slab_pricing,
      Some(RealOr(data.influencer_commission_rate, RealOr(original.influencer_commission_rate, 10.0))),
      if original.commission_settings.Some? then
        var cs := original.commission_settings.value;
        Some(cs.(commission_rate := Some(RealOr(data.influencer_commission_rate, RealOr(cs.commission_rate, 10.0)))))
      else None,
      None,
      Some(Inventory(Some(false), None, Some(InStock))),
      None);
    Spread(lit, data)
  }

  /** Because the request is spread last, a link request can name a vendor
      owner and a vendor creator type, and the stored product then has two
      owners and claims to be vendor-created. */
  lemma LinkRequestCanOverrideOwnership(original: Product, displayName: string)
    ensures var data := ProductPatch(None, None, None, None, None, Some(ByVendor), Some(3), None, None,
                                     None, None, None, None, None, None, None, None);
            var p := LinkedProduct(data, original, 1, 2, displayName);
            p.created_by_type == Some(ByVendor) && p.vendor == Some(3) && p.influencer == Some(2) &&
            !SingleOwner(p.created_by_type, p.vendor, p.influencer)
  {
  }

  /** `linkProduct`: checks role, profile, the original's existence and that
      it is vendor-created, then stores the linked product. */
  method LinkProduct(db: Store, user: Option<Caller>, originalId: Id, data: ProductPatch) returns (r: Result<Id>)
    requires db.Valid()
    modifies db`products, db`nextId
    ensures db.Valid()
    ensures user.None? || !HasRole(user.value, "Influencer") ==> r == Err(Forbidden)
    ensures user.Some? && HasRole(user.value, "Influencer") && !OwnsInfluencer(db.influencers, user.value.id) ==>
              r == Err(BadRequest)
    ensures (&& user.Some? && HasRole(user.value, "Influencer") && OwnsInfluencer(db.influencers, user.value.id)
             && Find(old(db.products), originalId).None?) ==> r == Err(NotFound)
    ensures (&& user.Some? && HasRole(user.value, "Influencer") && OwnsInfluencer(db.influencers, user.value.id)
             && Find(old(db.products), originalId).Some?
             && Find(old(db.products), originalId).value.created_by_type != Some(ByVendor)) ==> r == Err(BadRequest)
    ensures (&& user.Some? && HasRole(user.value, "Influencer") && OwnsInfluencer(db.influencers, user.value.id)
             && Find(old(db.products), originalId).Some?
             && Find(old(db.products), originalId).value.created_by_type == Some(ByVendor)) ==> r.Ok?
    ensures r.Err? ==> db.products == old(db.products) && db.nextId == old(db.nextId)
    ensures r.Ok? ==>
              && user.Some? && InfluencerOf(db.influencers, user.value.id).Some?
              && Find(old(db.products), originalId).Some?
              && Find(old(db.products), originalId).value.created_by_type == Some(ByVendor)
              && r.value == old(db.nextId)
              && var profile := InfluencerOf(db.influencers, user.value.id).value;
                 db.products == old(db.products) +
                   [Row(r.value, LinkedProduct(data, Find(old(db.products), originalId).value, originalId,
                                               profile.id, profile.val.display_name))]
  {
    if user.None? || !HasRole(user.value, "Influencer") {
      return Err(Forbidden);
    }
    var profile := InfluencerOf(db.influencers, user.value.id);
    if profile.None? {
      return Err(BadRequest);
    }
    var original := Find(db.products, originalId);
    if original.None? {
      return Err(NotFound);
    }
    if original.value.created_by_type != Some(ByVendor) {
      return Err(BadRequest);
    }
    var p := LinkedProduct(data, original.value, originalId, profile.value.id, profile.value.val.display_name);
    var id := db.CreateProduct(p);
    r := Ok(id);
  }

  /** `calculatePrice`: not found for a missing product, else the quote for
      `quantity` units (1 when the query names none). */
  method CalculatePrice(db: Store, id: Id, quantity: Option<nat>) returns (r: Result<Quote>)
    ensures Find(db.products, id).None? ==> r == Err(NotFound)
    ensures Find(db.products, id).Some? ==> r == Ok(PriceFor(Find(db.products, id).value, quantity.GetOr(1)))
  {
    var product := Find(db.products, id);
    if product.None? {
      return Err(NotFound);
    }
    r := Ok(PriceFor(product.value, quantity.GetOr(1)));
  }

  /** `findByVendor`: the vendor-created products of one vendor. */
  function VendorProducts(products: seq<Row<Product>>, vendorId: Id): (r: seq<Row<Product>>)
    ensures forall x :: x in r <==>
              x in products && x.val.vendor == Some(vendorId) && x.val.created_by_type == Some(ByVendor)
  {
    Where(products, (p: Product) => p.vendor == Some(vendorId) && p.created_by_type == Some(ByVendor))
  }

  /** `findByInfluencer`: the influencer-created products of one influencer. */
  function InfluencerProducts(products: seq<Row<Product>>, influencerId: Id): (r: seq<Row<Product>>)
    ensures forall x :: x in r <==>
              x in products && x.val.influencer == Some(influencerId) && x.val.created_by_type == Some(ByInfluencer)
  {
    Where(products, (p: Product) => p.influencer == Some(influencerId) && p.created_by_type == Some(ByInfluencer))
  }

  /** `getLinkedProducts`: the products that name `productId` as their original. */
  function LinkedTo(products: seq<Row<Product>>, productId: Id): (r: seq<Row<Product>>)
    ensures forall x :: x in r <==> x in products && x.val.original_product == Some(productId)
  {
    Where(products, (p: Product) => p.original_product == Some(productId))
  }

  /** A product a vendor creates is listed last among that vendor's products,
      after the ones listed before. */
  lemma CreatedByVendorIsListed(products: seq<Row<Product>>, id: Id, data: Product, vendorId: Id,
                                inherited: Option<CommissionSettings>, now: Timestamp)
    ensures var p := ShapedProduct(data, Creator(ByVendor, Some(vendorId), None), inherited, now);
            VendorProducts(products + [Row(id, p)], vendorId) == VendorProducts(products, vendorId) + [Row(id, p)]
  {
    var p := ShapedProduct(data, Creator(ByVendor, Some(vendorId), None), inherited, now);
    WhereAppend(products, [Row(id, p)], (q: Product) => q.vendor == Some(vendorId) && q.created_by_type == Some(ByVendor));
  }

  /** A linked product whose request does not rename its original is listed
      last among the original's linked products. */
  lemma LinkedIsListed(products: seq<Row<Product>>, id: Id, data: ProductPatch, original: Product,
                       originalId: Id, influencerId: Id, displayName: string)
    requires data.original_product.None?
    ensures var p := LinkedProduct(data, original, originalId, influencerId, displayName);
            LinkedTo(products + [Row(id, p)], originalId) == LinkedTo(products, originalId) + [Row(id, p)]
  {
    var p := LinkedProduct(data, original, originalId, influencerId, displayName);
    WhereAppend(products, [Row(id, p)], (q: Product) => q.original_product == Some(originalId));
  }
}
