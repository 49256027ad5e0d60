# Marketplace business rules, modelled in Dafny

This project models the business layer of a marketplace backend that runs on a
headless CMS. The marketplace has vendors, influencers and buyers. A vendor
lists products; an influencer either creates products or links to a vendor's
product and earns commission on it; a buyer spends money, earns loyalty points
and keeps a wishlist. The CMS document store (`entityService`) is modelled as
an in-memory class `Storage.Store`:

- it has one collection per content type: users, roles, vendors, influencers,
  buyers and products;
- each collection is a sequence of `(id, record)` rows in id order, which is
  also the order `findMany` returns;
- ids are handed out from a counter.

Each handler and service operation is a method on the store or a function on
records. Every such operation is proved against a specification:

- **Pricing** (`pricing.dfy`): the slab-price resolver behind `calculatePrice`.
  A slab applies when it is active, the quantity reaches its minimum, and its
  maximum is absent/zero or not exceeded. Among the slabs that apply, the one
  with the largest minimum is chosen, and ties go to the slab stored first.
  The unit price, total and savings follow from the chosen slab.
- **Product controller** (`product_controller.dfy`):
  - role-based `create`: authentication, role, own profile, original product;
  - the commission, SKU and inventory defaults, which test the request body's
    `created_by_type` and not the caller's role;
  - the owner fields the role dictates;
  - `linkProduct`, where the request body is spread last and so overrides
    every computed field;
  - the owner and original filters.
- **Approval** (`approval.dfy`): the approval state of vendor and influencer
  profiles, `status` × `verification_status`, and the moves approve, reject,
  suspend and verify make on it.
- **Vendor and influencer services and controllers**:
  - the approval moves, both as the services write them (two store updates)
    and as the controllers write them (one update);
  - sales and earnings increments;
  - username lookups;
  - statistics;
  - featured and verified-creator listings;
  - the platform/reach filter;
  - merging social-network metric updates;
  - the top-influencer ranking.
- **Buyer service and controller**:
  - spending, order and loyalty-point accumulation;
  - the premium rule, which only ever switches the flag on;
  - suspension and reactivation;
  - the wishlist (add without duplicates, remove every occurrence);
  - the caller's own profile.
- **Registration** (`registration.dfy`): the users-permissions `register`
  override:
  - it validates the role kind and the credentials;
  - it refuses a lower-cased email that is already taken;
  - it seeds the role-specific profile;
  - it deletes the new user again when the profile cannot be created.
- **User deletion** (`user_lifecycles.dfy`): the user `beforeDelete` cascade.
  It deletes the user's vendor, influencer and buyer profiles one at a time.
  The first failing delete ends it with an error, and the deletions made
  before it stay done.

Inputs the model does not compute are passed in as parameters:

- the current time;
- the authenticated caller;
- which store writes fail: a `profileFails` flag for registration, and a set
  of ids whose delete fails for the cascade.

JavaScript truthiness (`x || d`, `!x`) is written out in `Base`. Money and
rates are `real`.

## Model

| member | source | states |
|---|---|---|
| Pricing.ValidSlabs | src/api/product/controllers/product.js:394-396 | a slab is kept iff it is active, the quantity reaches its `min_quantity`, and its `max_quantity` is absent/zero or not exceeded |
| Pricing.Filter | src/api/product/controllers/product.js:394-396 | `filter` keeps exactly the elements satisfying the predicate and never grows the list |
| Pricing.FirstLargest | src/api/product/controllers/product.js:397-400 | the head of a stable sort by decreasing `min_quantity`: no slab has a larger minimum, and every slab before it has a smaller one |
| Pricing.SelectSlab | src/api/product/controllers/product.js:393-402 | no slab is applied iff none applies; otherwise the applied slab is stored, applies, and has the largest minimum among those that apply |
| Pricing.SelectSlabCons | src/api/product/controllers/product.js:394-400 | with one more slab in front, that slab wins unless it does not apply or the rest offers a strictly larger minimum |
| Pricing.SelectSlabIsFirstLargest | src/api/product/controllers/product.js:397-400 | ties on the largest minimum go to the slab stored first |
| Pricing.PriceFor | src/api/product/controllers/product.js:389-416 | without an applied slab, unit = base price and savings 0; with one, unit = slab price and savings = (base − unit) × quantity; in both cases total = unit × quantity |
| Pricing.SavingsAgainstBasePrice | src/api/product/controllers/product.js:405-406 | savings always equal base price × quantity − total |
| Pricing.BelowEveryTier | src/api/product/controllers/product.js:389-406 | below every slab minimum the base price applies and nothing is saved |
| Pricing.NoDearerThanBase | src/api/product/controllers/product.js:399-406 | when no active slab is dearer than the base price, the quote never costs more than the base price and savings are never negative |
| Pricing.DearerSlabGivesNegativeSavings | src/api/product/controllers/product.js:401-406 | a slab priced above the base price gives negative savings (no guard) |
| Pricing.TwoTierExample | src/api/product/controllers/product.js:389-406 | a worked two-tier quote: 10 units at 8, 5 at 10, 0 at the base price |
| ProductController.CreatePlan | src/api/product/controllers/product.js:106-168 | unauthenticated → unauthorized; neither role → forbidden; a missing profile or an unresolvable original → bad request; on success exactly one owner, the one the role names, taken from the caller's first profile |
| ProductController.Inherited | src/api/product/controllers/product.js:156-163 | a linking influencer inherits the original's settings when it has any, and the rate is replaced only by a truthy request rate |
| ProductController.CommissionAfterCreate | src/api/product/controllers/product.js:170-183 | the body's `created_by_type` decides: `influencer` → null; `vendor` with none given → {rate or 10, percentage, 0, enabled}; otherwise unchanged |
| ProductController.SkuPrefix | src/api/product/controllers/product.js:188 | the prefix is `VND` iff the body says vendor, else `INF` |
| ProductController.SkuAfterCreate | src/api/product/controllers/product.js:186-190 | a truthy SKU is kept; otherwise the SKU is prefix, `-`, and the decimal timestamp |
| ProductController.GeneratedSkusDiffer | src/api/product/controllers/product.js:186-190 | generated SKUs taken at different times differ |
| ProductController.InventoryAfterCreate | src/api/product/controllers/product.js:192-196 | tracked inventory with a falsy stock becomes stock 0, out of stock; any other inventory is kept |
| ProductController.ShapedProduct | src/api/product/controllers/product.js:199 | the owner fields come from the role and override the body; the other fields are the body's except the three defaults |
| ProductController.ApplyCreateDefaults | src/api/product/controllers/product.js:156-199 | the in-place edits of the request body, in order, give exactly the shaped product |
| ProductController.Create | src/api/product/controllers/product.js:102-202 | a dispatch error is answered and nothing is written; otherwise the shaped product is appended under a fresh id, with a single owner |
| ProductController.BodyTypeDecidesDefaults | src/api/product/controllers/product.js:171-188 | an Influencer caller whose body says `vendor` stores an influencer-owned product with vendor commission settings and a `VND` SKU |
| ProductController.LinkedProduct | src/api/product/controllers/product.js:256-279 | every request field is stored as sent; absent ones get the computed copy of the original: its description, price, currency, product type, tags and slabs, the influencer as sole owner, the rate is request rate, else the original's, else 10, and the settings are null iff the original has none; categories and shipping, which the original is loaded without, stay unset unless the request carries them |
| ProductController.LinkRequestCanOverrideOwnership | src/api/product/controllers/product.js:262-278 | a link request naming a vendor owner stores a vendor-typed product with two owners |
| ProductController.LinkProduct | src/api/product/controllers/product.js:224-282 | non-influencer → forbidden; no profile → bad request; missing original → not found; non-vendor original → bad request, all writing nothing; when every check passes the call succeeds and the linked product is appended, with no categories or shipping copied from the original |
| ProductController.CalculatePrice | src/api/product/controllers/product.js:377-417 | a missing product → not found; otherwise the quote for the quantity, 1 by default |
| ProductController.VendorProducts | src/api/product/controllers/product.js:307-312 | exactly the vendor-created products of that vendor |
| ProductController.InfluencerProducts | src/api/product/controllers/product.js:330-335 | exactly the influencer-created products of that influencer |
| ProductController.LinkedTo | src/api/product/controllers/product.js:359-363 | exactly the products naming that product as their original |
| ProductController.CreatedByVendorIsListed | src/api/product/controllers/product.js:199-202 | a product a vendor creates appears last in that vendor's listing, after the ones listed before |
| ProductController.LinkedIsListed | src/api/product/controllers/product.js:256-282 | a linked product appears last in its original's linked listing |
| Approval.Approve | src/api/vendor/services/vendor.js:121-122 | approval leaves the profile approved and verified, hence listed |
| Approval.Reject | src/api/vendor/services/vendor.js:138-139 | rejection leaves status and verification both rejected |
| Approval.Suspend | src/api/vendor/services/vendor.js:155 | suspension changes the status only, and a suspended profile is not listed |
| Approval.Verify | src/api/vendor/services/vendor.js:171 | verification changes the verification only; the profile is then listed iff it was approved |
| Approval.ApproveAfterSuspend | src/api/influencer/services/influencer.js:149-150 | approving a suspended profile lists it again |
| Approval.VerifyDoesNotLift | src/api/influencer/services/influencer.js:199-204 | verifying a suspended profile does not list it |
| Approval.RegisteredNotListed | src/extensions/users-permissions/strapi-server.js:88-89 | a freshly registered profile is listed only after approval |
| Approval.MovesIdempotent | src/api/influencer/services/influencer.js:147-204 | each move made twice lands where it landed once |
| VendorService.WithStanding | src/api/vendor/services/vendor.js:10-20 | a status/verification write changes those two fields and nothing else |
| VendorService.UpdateStatus | src/api/vendor/services/vendor.js:8-20 | the status is written; a missing vendor → null and no change |
| VendorService.UpdateVerificationStatus | src/api/vendor/services/vendor.js:33-45 | the verification is written; a missing vendor → null and no change |
| VendorService.ApproveVendor | src/api/vendor/services/vendor.js:119-128 | the vendor is stored approved and verified; the answer is the first update's result |
| VendorService.RejectVendor | src/api/vendor/services/vendor.js:136-145 | the vendor is stored rejected/rejected; the answer is the first update's result |
| VendorService.SuspendVendor | src/api/vendor/services/vendor.js:153-160 | only the status changes, to suspended |
| VendorService.VerifyVendor | src/api/vendor/services/vendor.js:169-172 | only the verification changes, to verified |
| VendorService.Sold | src/api/vendor/services/vendor.js:310 | the new total is the old one (0 when falsy) plus the amount, nothing else changes |
| VendorService.SoldTwice | src/api/vendor/services/vendor.js:307-314 | two sales add up to one sale of their sum |
| VendorService.IncrementSales | src/api/vendor/services/vendor.js:307-314 | a missing vendor throws and nothing is written; otherwise the sold vendor is stored |
| VendorService.ByUsername | src/api/vendor/services/vendor.js:229-243 | none iff no vendor has the username; otherwise the first that does |
| VendorService.Stats | src/api/vendor/services/vendor.js:86-111 | throws iff the vendor is missing; otherwise 0 products, totals/rating read as 0 when falsy, and the business name, username, standing, joined date, featured flag and commission rate are the vendor's |
| VendorService.SaleShowsInStats | src/api/vendor/services/vendor.js:307-314 | after a sale the reported total grows by the amount and nothing else reported changes |
| VendorController.ApplyVendorDefaults | src/api/vendor/controllers/vendor.js:53-60 | the caller becomes the owner only when one is authenticated and none is given; `joined_date` is set only when absent; nothing else changes |
| VendorController.Create | src/api/vendor/controllers/vendor.js:49-62 | the defaulted body is appended under a fresh id; a sent joined date is kept, else it is the current time |
| VendorController.FindByUsername | src/api/vendor/controllers/vendor.js:82-98 | not found iff no vendor has the username; otherwise the first match |
| VendorController.FindFeatured | src/api/vendor/controllers/vendor.js:126-131 | exactly the featured, approved vendors |
| VendorController.SuspendedNotFeatured | src/api/vendor/controllers/vendor.js:126-131 | a suspended vendor is not in the featured listing |
| VendorController.ApprovedFeaturedIsListed | src/api/vendor/controllers/vendor.js:172-176 | approving a featured vendor puts it in the featured listing |
| VendorController.Approve | src/api/vendor/controllers/vendor.js:172-176 | one update writes approved and verified together; the answer shows both |
| VendorController.Reject | src/api/vendor/controllers/vendor.js:196-200 | one update writes rejected/rejected |
| VendorController.Suspend | src/api/vendor/controllers/vendor.js:223-224 | one update writes the suspended status only |
| InfluencerService.WithStanding | src/api/influencer/services/influencer.js:8-45 | a status/verification write changes those two fields and nothing else |
| InfluencerService.ApproveInfluencer | src/api/influencer/services/influencer.js:147-156 | the profile is stored approved and verified; the answer is the first update's result |
| InfluencerService.RejectInfluencer | src/api/influencer/services/influencer.js:164-173 | the profile is stored rejected/rejected |
| InfluencerService.SuspendInfluencer | src/api/influencer/services/influencer.js:181-189 | only the status changes, to suspended |
| InfluencerService.VerifyCreator | src/api/influencer/services/influencer.js:197-207 | the creator flag is set and the verification becomes verified; the status is kept |
| InfluencerService.Earned | src/api/influencer/services/influencer.js:419 | the new earnings are the old ones (0 when missing) plus the amount, nothing else changes |
| InfluencerService.EarnedTwice | src/api/influencer/services/influencer.js:416-423 | two increments are one increment by their sum |
| InfluencerService.IncrementEarnings | src/api/influencer/services/influencer.js:416-423 | a missing profile throws and nothing is written; otherwise the increased profile is stored |
| InfluencerService.ByUsername | src/api/influencer/services/influencer.js:267-283 | none iff no profile has the username; otherwise the first that does |
| InfluencerService.TotalFollowers | src/api/influencer/services/influencer.js:98-100 | networks without counts total 0, and a single network totals its own count |
| InfluencerService.TotalFollowersAppend | src/api/influencer/services/influencer.js:98-100 | the follower total of two network lists is the sum of their totals |
| InfluencerService.TotalFollowersBound | src/api/influencer/services/influencer.js:98-100 | with non-negative counts, each network's count is at most the total |
| InfluencerService.TotalFollowersNonNegative | src/api/influencer/services/influencer.js:98-100 | with non-negative counts the total is non-negative |
| InfluencerService.Primary | src/api/influencer/services/influencer.js:115 | none iff no network is primary; otherwise the first primary network |
| InfluencerService.Account | src/api/influencer/services/influencer.js:306-308 | none iff no network is on the platform; otherwise the first that is |
| InfluencerService.Stats | src/api/influencer/services/influencer.js:88-135 | throws iff the profile is missing; total followers are the sum with missing counts as 0; platform count; the primary platform is reported iff the first primary network has a non-empty platform, and its followers (0 without one); earnings and rating read as 0 when missing; display name, username, approval state, verified-creator and featured flags, commission rate and joined date are the profile's |
| InfluencerService.ByPlatformAndReach | src/api/influencer/services/influencer.js:295-316 | an influencer is kept iff it is approved and its first network on the platform has between min and max (null max: unbounded) followers |
| InfluencerService.ReachWidens | src/api/influencer/services/influencer.js:305-314 | widening the follower window never drops an influencer |
| InfluencerService.UpdateFor | src/api/influencer/services/influencer.js:336 | none iff no update names the platform; otherwise the first update naming it |
| InfluencerService.Merged | src/api/influencer/services/influencer.js:335-345 | same length and platforms in order; a network with an update is overlaid with the first such update and stamped; the others are unchanged |
| InfluencerService.MergedIdempotent | src/api/influencer/services/influencer.js:335-345 | applying the same updates twice at the same time is applying them once |
| InfluencerService.MergedKeepsTotal | src/api/influencer/services/influencer.js:335-345 | updates without follower counts keep the follower total |
| InfluencerService.UpdateSocialMetrics | src/api/influencer/services/influencer.js:324-353 | a missing profile throws and nothing is written; otherwise the merged networks are stored |
| InfluencerService.Candidates | src/api/influencer/services/influencer.js:433-461 | exactly the approved and verified profiles, each with its reach on the platform or in total |
| InfluencerService.Insert | src/api/influencer/services/influencer.js:464-465 | insertion adds exactly the one element (as a multiset) |
| InfluencerService.InsertKeepsSorted | src/api/influencer/services/influencer.js:464-465 | insertion keeps a descending list descending |
| InfluencerService.SortDesc | src/api/influencer/services/influencer.js:464-465 | the sort gives a permutation ordered by decreasing reach |
| InfluencerService.Slice | src/api/influencer/services/influencer.js:466 | `slice(0, limit)` is a prefix of length limit capped at the length, or counted from the end for a negative limit |
| InfluencerService.TopInfluencers | src/api/influencer/services/influencer.js:431-466 | sorted by decreasing reach, drawn from the candidates without repetition, at most `limit` of them (a negative limit drops that many from the end), and every candidate left out ranks no higher than each one kept |
| InfluencerService.RankingIsTop | src/api/influencer/services/influencer.js:464-466 | the cut sorted ranking is descending, draws each candidate at most as often as it occurs, and ranks every left-out candidate no higher than each kept one |
| InfluencerService.PrefixOfSortedIsTop | src/api/influencer/services/influencer.js:464-466 | what a prefix of a descending ranking leaves out ranks no higher than anything it keeps |
| InfluencerController.ApplyInfluencerDefaults | src/api/influencer/controllers/influencer.js:57-64 | the caller becomes the owner only when one is authenticated and none is given; `joined_date` is set only when absent; nothing else changes |
| InfluencerController.Create | src/api/influencer/controllers/influencer.js:53-66 | the defaulted body is appended under a fresh id; a sent joined date is kept, else it is the current time |
| InfluencerController.Approve | src/api/influencer/controllers/influencer.js:241-245 | one update writes approved and verified together, so the profile is listed |
| InfluencerController.Reject | src/api/influencer/controllers/influencer.js:267-271 | one update writes rejected/rejected |
| InfluencerController.Suspend | src/api/influencer/controllers/influencer.js:296-298 | one update writes the suspended status only |
| InfluencerController.VerifyCreator | src/api/influencer/controllers/influencer.js:321-325 | one update sets the creator flag and verified, leaving the status |
| InfluencerController.FindByUsername | src/api/influencer/controllers/influencer.js:88-106 | not found iff no profile has the username; otherwise the first match |
| InfluencerController.FindFeatured | src/api/influencer/controllers/influencer.js:136-141 | exactly the featured, approved profiles |
| InfluencerController.FindVerifiedCreators | src/api/influencer/controllers/influencer.js:162-167 | exactly the approved verified creators |
| InfluencerController.GetStats | src/api/influencer/controllers/influencer.js:343-387 | not found iff the profile is missing; otherwise the follower total is the sum with missing counts as 0, and every field the controller reports agrees with the service statistics |
| BuyerService.BuyerOf | src/api/buyer/services/buyer.js:8-22 | none iff the user has no buyer profile; otherwise the first one |
| BuyerService.AfterOrder | src/api/buyer/services/buyer.js:38-49 | spending grows by the amount, orders by one, and points by the amount's floor (missing fields count as 0); nothing else changes |
| BuyerService.TwoOrders | src/api/buyer/services/buyer.js:38-42 | two orders spend their sum and count two; splitting an order never earns more points |
| BuyerService.FloorsAdd | src/api/buyer/services/buyer.js:42 | the floors of two amounts add up to at most the floor of their sum |
| BuyerService.QualifyingIsKept | src/api/buyer/services/buyer.js:67 | a qualifying buyer still qualifies after any further non-negative order |
| BuyerService.Promoted | src/api/buyer/services/buyer.js:67-75 | premium afterwards iff premium before or qualifying; the flag is never cleared; nothing else changes |
| BuyerService.PromotedIdempotent | src/api/buyer/services/buyer.js:67-75 | checking twice is checking once |
| BuyerService.Added | src/api/buyer/services/buyer.js:153-156 | the product is listed afterwards; the list is unchanged if it was there, otherwise it is appended; no duplicates are created |
| BuyerService.AddedIdempotent | src/api/buyer/services/buyer.js:153-156 | adding twice is adding once |
| BuyerService.Removed | src/api/buyer/services/buyer.js:179-180 | exactly the other entries remain |
| BuyerService.RemovedAppend | src/api/buyer/services/buyer.js:180 | removal distributes over concatenation, so the remaining entries keep their order |
| BuyerService.RemovedAbsent | src/api/buyer/services/buyer.js:180 | removing an unlisted product changes nothing |
| BuyerService.RemoveUndoesAdd | src/api/buyer/services/buyer.js:153-184 | adding an unlisted product and removing it gives the wishlist back |
| BuyerService.RemovedDistinct | src/api/buyer/services/buyer.js:180 | removal keeps a wishlist free of duplicates |
| BuyerService.UpdateSpending | src/api/buyer/services/buyer.js:30-49 | a missing buyer throws and nothing is written; otherwise the accumulated totals are stored |
| BuyerService.CheckPremiumEligibility | src/api/buyer/services/buyer.js:58-75 | a missing buyer throws; the store is written only when the flag must be switched on; the answer is the promoted buyer |
| BuyerService.SuspendAccount | src/api/buyer/services/buyer.js:115-122 | only `account_status` changes, to suspended; a missing buyer → null and no change |
| BuyerService.ReactivateAccount | src/api/buyer/services/buyer.js:130-137 | only `account_status` changes, to active |
| BuyerService.AddToWishlist | src/api/buyer/services/buyer.js:145-163 | a missing buyer throws; the store is written only when the product is not listed yet |
| BuyerService.RemoveFromWishlist | src/api/buyer/services/buyer.js:171-184 | a missing buyer throws; otherwise the list without the product is stored |
| BuyerController.ApplyBuyerDefaults | src/api/buyer/controllers/buyer.js:53-60 | the caller becomes the owner only when one is authenticated and none is given; `customer_since` is set only when absent |
| BuyerController.Create | src/api/buyer/controllers/buyer.js:49-72 | the defaulted body is appended under a fresh id; a sent customer-since date is kept, else it is the current time; with neither a caller nor a sent user the buyer has no owner |
| BuyerController.GetMyProfile | src/api/buyer/controllers/buyer.js:99-121 | no caller → unauthorized; no profile → not found; a caller with a profile always gets their first buyer profile; no other error |
| BuyerController.Patched | src/api/buyer/controllers/buyer.js:143-144 | every one of the fourteen fields the request carries is stored as sent, and every field it leaves out keeps its stored value; an empty request changes nothing |
| BuyerController.PatchedIdempotent | src/api/buyer/controllers/buyer.js:143-144 | applying the same request twice is applying it once |
| BuyerController.UpdateMyProfile | src/api/buyer/controllers/buyer.js:125-143 | no caller → unauthorized and no profile → not found, both writing nothing; a caller with a profile always succeeds, and only their first buyer profile is updated |
| Base.Lower | src/extensions/users-permissions/strapi-server.js:56 | lower-casing keeps the length, leaves no upper-case letter and keeps every other character |
| Base.LowerIdempotent | src/extensions/users-permissions/strapi-server.js:56-67 | lower-casing twice is lower-casing once |
| Base.Decimal | src/api/product/controllers/product.js:189 | the timestamp prints as a non-empty digit string with no leading zero |
| Base.DecimalRoundTrip | src/api/product/controllers/product.js:189 | reading the printed number back gives the number |
| Base.DecimalInjective | src/api/product/controllers/product.js:189 | different numbers print differently |
| Registration.KindOf | src/extensions/users-permissions/strapi-server.js:30-33 | a role kind is recognised iff it is `vendor`, `influencer` or `buyer` |
| Registration.RoleFor | src/extensions/users-permissions/strapi-server.js:43-52 | none iff no role has the kind's name; otherwise the first stored role with that name |
| Registration.Holder | src/extensions/users-permissions/strapi-server.js:55-61 | none iff no user holds the email; otherwise the first user holding it |
| Registration.OrNull | src/extensions/users-permissions/strapi-server.js:84-86 | `x || null` keeps exactly the truthy values |
| Registration.OrFalse | src/extensions/users-permissions/strapi-server.js:135-136 | `x || false` is true iff the flag is true |
| Registration.VendorProfile | src/extensions/users-permissions/strapi-server.js:79-94 | owned by the new user, pending/unverified (not listed), rating 0, sales 0, commission 0.15, not featured, raw contact email |
| Registration.InfluencerProfile | src/extensions/users-permissions/strapi-server.js:101-116 | owned by the new user, pending/unverified, rating 0, earnings 0, commission 0.05, not featured, not a verified creator |
| Registration.BuyerProfile | src/extensions/users-permissions/strapi-server.js:123-137 | owned by the new user, active, zero totals and points, not premium, flags only when given as true |
| Registration.UniqueEmailsAppend | src/extensions/users-permissions/strapi-server.js:55-73 | adding a user whose email nobody holds keeps emails unique |
| Registration.CreateProfile | src/extensions/users-permissions/strapi-server.js:78-142 | exactly one profile, of the requested kind, is appended |
| Registration.Register | src/extensions/users-permissions/strapi-server.js:16-149 | no role kind → delegated, writing nothing; every other failure → bad request, writing nothing; a user and profile are created iff every check passes and the profile write succeeds; the stored email is lower-cased; emails stay unique |
| Registration.CaseVariantRefused | src/extensions/users-permissions/strapi-server.js:55-61 | a stored `al@x` refuses a registration as `Al@X` |
| UserLifecycles.Attempted | src/extensions/users-permissions/content-types/user/lifecycles.js:29-56 | the ids deleted before the first failing delete: a prefix with no failing id, followed by a failing one or the end |
| UserLifecycles.AttemptedIsPrefix | src/extensions/users-permissions/content-types/user/lifecycles.js:29-56 | a failure-free prefix that stops at a failure or the end is exactly what is deleted |
| UserLifecycles.DeleteVendors | src/extensions/users-permissions/content-types/user/lifecycles.js:30-35 | the vendor loop deletes the attempted ids and reports whether all were deleted |
| UserLifecycles.DeleteInfluencers | src/extensions/users-permissions/content-types/user/lifecycles.js:37-42 | the influencer loop, likewise |
| UserLifecycles.DeleteBuyers | src/extensions/users-permissions/content-types/user/lifecycles.js:44-49 | the buyer loop, likewise |
| UserLifecycles.BeforeDelete | src/extensions/users-permissions/content-types/user/lifecycles.js:5-57 | no user id → no change; otherwise vendors, then influencers, then buyers are deleted, each stage only if the previous one completed; any failure → a thrown error with earlier deletions kept |
| UserLifecycles.CascadeLeavesNoProfile | src/extensions/users-permissions/content-types/user/lifecycles.js:17-49 | after a complete cascade no vendor, influencer or buyer profile names the user |
| UserLifecycles.CascadeSparesOthers | src/extensions/users-permissions/content-types/user/lifecycles.js:17-35 | whether the cascade completes or stops early, every vendor profile of another user remains, and nothing is added |

The user `beforeDelete` hook registered in
`src/extensions/users-permissions/strapi-server.js:190-242` has the same body
as the one in the user lifecycles file. `UserLifecycles.BeforeDelete` models
both.

## Left out

- Email notifications (`sendApprovalEmail` and the other senders): they only log. The service approval moves model the store writes and leave out the notification.
- `updateRating` in the vendor and influencer services: it rewrites the existing rating.
- `getBuyerStats`: a projection of stored fields with no rule in it.
- `findByStatus`, `findByUser`, `findByNiche`, `searchVendors`, `searchInfluencers`: query-language searches (`$containsi`, `$contains`) that the store runs.
- The generic `find`/`findOne` controller actions and the influencer service's `updateStatus`/`updateVerificationStatus`. These are framework plumbing, or single store updates that the approval moves already cover.
- `sanitizeOutput` and `transformResponse` response shaping, `populate` of media and relations the model does not carry (what `linkProduct` loads is modelled), logging, JWT issuance and password handling. `User` carries no password.
- The default users-permissions register handler that a request without a role kind is handed to. It is outside this code; the model writes nothing in that case.
- Registration: the outer `catch` for store errors during the role lookup, the email check or the user create, and a failure of the compensating delete. Only a failing profile write is modelled, as the `profileFails` parameter. Username uniqueness, which the store enforces, is not modelled.
- The user cascade: store failures are modelled only as the set of ids whose delete fails. A failing lookup before the deletions is not modelled.
- InfluencerService.Stats: the average engagement rate, its `Math.round` and the primary platform's engagement rate are floating point and are left out. `nicheCategories` and `contentTypes` are left out because the model's influencer record does not carry those fields.
- InfluencerController.GetStats: its average engagement reduce is floating point and is left out.
- ProductController.CalculatePrice: the query-string `quantity` is taken as an already-parsed natural number (default 1). String coercion and the final `parseInt` are not modelled.
- Timestamps: `Date.now()` and `new Date().toISOString()` are a `nat` parameter. ISO date formatting is not modelled.
- Concurrency: each handler runs atomically. Lost updates between a read and its write-back (the counters, the wishlist) and async interleavings are not modelled.
- Request bodies: an absent key and an explicit JSON `null` are the same `None`. Fields the model has no rule for (images, addresses, slugs) are not carried.
- Base.Lower: lower-cases ASCII letters only. JavaScript's full Unicode case mapping is not modelled.
- InfluencerService.TopInfluencers: does not state that equal reaches keep store order. The ranking sort is modelled as a stable insertion sort. The JavaScript defaults (`limit = 10`, `platform = null`) are not modelled: callers pass both.
- InfluencerService.ByPlatformAndReach: the caller's `options` spread into the store query (which could override the approved filter or add others) is not modelled; the query is the approved filter alone.
- Storage.Store: ids are one counter shared by all collections, and the store is unbounded. Store errors beyond those named above are not modelled.
- Schema ranges from the generated component types (slab minimum ≥ 1, price ≥ 0, commission rate 0..50) are not enforced. The slab and pricing lemmas state their own preconditions where they need one.
