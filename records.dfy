/** The content types of the marketplace: the three account profiles
    (vendor, influencer, buyer), users and roles, and products with their
    pricing slabs, commission settings and inventory. An attribute the
    content type gives a default is stored as a plain value; an attribute
    that may be missing is an Option. */
module Records {
  import opened Base

  /** `status` of a vendor or influencer profile. */
  datatype Status = Pending | Approved | Rejected | Suspended

  /** `verification_status` of a vendor or influencer profile. */
  datatype VerificationStatus = Unverified | Verified | Rejected

  /** `account_status` of a buyer: buyers have no approval gate. */
  datatype AccountStatus = Active | Suspended

  datatype Vendor = Vendor(
    user: Option<Id>,
    business_name: string,
    username: string,
    contact_email: string,
    phone: Option<string>,
    description: Option<string>,
    website: Option<string>,
    joined_date: Option<Timestamp>,
    status: Status,
    verification_status: VerificationStatus,
    rating: Option<real>,
    total_sales: Option<real>,
    commission_rate: Option<real>,
    is_featured: bool)

  /** One entry of an influencer's `social_networks` component list. */
  datatype SocialNetwork = SocialNetwork(
    platform: string,
    followers_count: Option<int>,
    engagement_rate: Option<real>,
    is_primary: bool,
    last_updated: Option<Timestamp>)

  datatype Influencer = Influencer(
    user: Option<Id>,
    display_name: string,
    username: string,
    contact_email: string,
    phone: Option<string>,
    bio: Option<string>,
    joined_date: Option<Timestamp>,
    status: Status,
    verification_status: VerificationStatus,
    rating: Option<real>,
    total_earnings: Option<real>,
    commission_rate: Option<real>,
    is_featured: bool,
    is_verified_creator: bool,
    social_networks: seq<SocialNetwork>)

  datatype Buyer = Buyer(
    user: Option<Id>,
    first_name: string,
    last_name: string,
    display_name: string,
    phone: Option<string>,
    customer_since: Option<Timestamp>,
    account_status: AccountStatus,
    total_spent: Option<real>,
    total_orders: Option<int>,
    loyalty_points: Option<int>,
    is_premium: bool,
    newsletter_subscribed: bool,
    marketing_consent: bool,
    wishlist: seq<Id>)

  /** The fields a client may send to update a buyer; each present field
      replaces the stored one. */
  datatype BuyerPatch = BuyerPatch(
    user: Option<Id>,
    first_name: Option<string>,
    last_name: Option<string>,
    display_name: Option<string>,
    phone: Option<string>,
    customer_since: Option<Timestamp>,
    account_status: Option<AccountStatus>,
    total_spent: Option<real>,
    total_orders: Option<int>,
    loyalty_points: Option<int>,
    is_premium: Option<bool>,
    newsletter_subscribed: Option<bool>,
    marketing_consent: Option<bool>,
    wishlist: Option<seq<Id>>)

  /** A user of the users-permissions plugin (the password is kept by the
      plugin and is not part of this model). */
  datatype User = User(username: string, email: string, role: Id, confirmed: bool, blocked: bool)

  datatype Role = Role(name: string)

  /** The authenticated caller of a handler (ctx.state.user) and the name of
      its role, if it has one. */
  datatype Caller = Caller(id: Id, role: Option<string>)

  /** `created_by_type` of a product: 'vendor' or 'influencer'. */
  datatype CreatorType = ByVendor | ByInfluencer

  datatype CommissionType = Percentage | FixedAmount

  datatype CommissionSettings = CommissionSettings(
    commission_rate: Option<real>,
    commission_type: Option<CommissionType>,
    minimum_sale_amount: Option<real>,
    is_commission_enabled: Option<bool>)

  datatype StockStatus = InStock | LowStock | OutOfStock | OnBackorder

  datatype Inventory = Inventory(
    track_inventory: Option<bool>,
    stock_quantity: Option<int>,
    stock_status: Option<StockStatus>)

  /** A quantity-based price tier. */
  datatype Slab = Slab(min_quantity: int, max_quantity: Option<int>, price: real, is_active: bool)

  datatype Product = Product(
    name: Option<string>,
    description: Option<string>,
    base_price: real,
    currency: Option<string>,
    product_type: Option<string>,
    created_by_type: Option<CreatorType>,
    vendor: Option<Id>,
    influencer: Option<Id>,
    original_product: Option<Id>,
    categories: Option<seq<Id>>,
    tags: Option<seq<string>>,
    slab_pricing: seq<Slab>,
    influencer_commission_rate: Option<real>,
    commission_settings: Option<CommissionSettings>,
    sku: Option<string>,
    inventory: Option<Inventory>,
    shipping: Option<string>)

  /** The body of a link request: every product field is optional, and each
      present field is spread over the linked product last. */
  datatype ProductPatch = ProductPatch(
    name: Option<string>,
    description: Option<string>,
    base_price: Option<real>,
    currency: Option<string>,
    product_type: Option<string>,
    created_by_type: Option<CreatorType>,
    vendor: Option<Id>,
    influencer: Option<Id>,
    original_product: Option<Id>,
    categories: Option<seq<Id>>,
    tags: Option<seq<string>>,
    slab_pricing: Option<seq<Slab>>,
    influencer_commission_rate: Option<real>,
    commission_settings: Option<CommissionSettings>,
    sku: Option<string>,
    inventory: Option<Inventory>,
    shipping: Option<string>)
}
