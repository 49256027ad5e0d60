/** The vendor service: the status and verification updates the approval
    moves are built from, sales increments, the username lookup and the
    vendor statistics. */
module VendorService {
  import opened Base
  import opened Table
  import opened Records
  import opened Storage
  import opened Approval

  function StandingOf(v: Vendor): Standing {
    Standing(v.status, v.verification_status)
  }

  /** The profile with its approval state replaced and nothing else changed. */
  function WithStanding(v: Vendor, s: Standing): (r: Vendor)
    ensures StandingOf(r) == s
    ensures r.(status := v.status, verification_status := v.verification_status) == v
  {
    v.(status := s.status, verification_status := s.verification)
  }

  /** `updateStatus`: one update of the status; null for a missing vendor. */
  method UpdateStatus(db: Store, id: Id, status: Status) returns (r: Option<Vendor>)
    requires db.Valid()
    modifies db`vendors
    ensures db.Valid()
    ensures Find(old(db.vendors), id).None? ==> r.None? && db.vendors == old(db.vendors)
    ensures Find(old(db.vendors), id).Some? ==>
              var v := Find(old(db.vendors), id).value;
              r == Some(v.(status := status)) && db.vendors == Put(old(db.vendors), id, v.(status := status))
  {
    r := db.UpdateVendor(id, (v: Vendor) => v.(status := status));
  }

  /** `updateVerificationStatus`: one update of the verification. */
  method UpdateVerificationStatus(db: Store, id: Id, verification: VerificationStatus) returns (r: Option<Vendor>)
    requires db.Valid()
    modifies db`vendors
    ensures db.Valid()
    ensures Find(old(db.vendors), id).None? ==> r.None? && db.vendors == old(db.vendors)
    ensures Find(old(db.vendors), id).Some? ==>
              var v := Find(old(db.vendors), id).value;
              var v' := v.(verification_status := verification);
              r == Some(v') && db.vendors == Put(old(db.vendors), id, v')
  {
    r := db.UpdateVendor(id, (v: Vendor) => v.(verification_status := verification));
  }

  /** `approveVendor`: the status update, then the verification update. The
      answer is the result of the first, so it still shows the old
      verification; a missing vendor is answered with null. */
  method ApproveVendor(db: Store, id: Id) returns (r: Option<Vendor>)
    requires db.Valid()
    modifies db`vendors
    ensures db.Valid()
    ensures Find(old(db.vendors), id).None? ==> r.None? && db.vendors == old(db.vendors)
    ensures Find(old(db.vendors), id).Some? ==>
              var v := Find(old(db.vendors), id).value;
              && r == Some(v.(status := Approved))
              && db.vendors == Put(old(db.vendors), id, WithStanding(v, Approve(StandingOf(v))))
  {
    ghost var before := db.vendors;
    r := UpdateStatus(db, id, Approved);
    if r.Some? {
      PutFind(before, id, r.value, id);
    }
    var _ := UpdateVerificationStatus(db, id, Verified);
    if r.Some? {
      PutPut(before, id, r.value, r.value.(verification_status := Verified));
    }
  }

  /** `rejectVendor`: status then verification set to rejected. */
  method RejectVendor(db: Store, id: Id) returns (r: Option<Vendor>)
    requires db.Valid()
    modifies db`vendors
    ensures db.Valid()
    ensures Find(old(db.vendors), id).None? ==> r.None? && db.vendors == old(db.vendors)
    ensures Find(old(db.vendors), id).Some? ==>
              var v := Find(old(db.vendors), id).value;
              && r == Some(v.(status := Status.Rejected))
              && db.vendors == Put(old(db.vendors), id, WithStanding(v, Reject(StandingOf(v))))
  {
    ghost var before := db.vendors;
    r := UpdateStatus(db, id, Status.Rejected);
    if r.Some? {
      PutFind(before, id, r.value, id);
    }
    var _ := UpdateVerificationStatus(db, id, VerificationStatus.Rejected);
    if r.Some? {
      PutPut(before, id, r.value, r.value.(verification_status := VerificationStatus.Rejected));
    }
  }

  /** `suspendVendor`: the status only. */
  method SuspendVendor(db: Store, id: Id) returns (r: Option<Vendor>)
    requires db.Valid()
    modifies db`vendors
    ensures db.Valid()
    ensures Find(old(db.vendors), id).None? ==> r.None? && db.vendors == old(db.vendors)
    ensures Find(old(db.vendors), id).Some? ==>
              var v := Find(old(db.vendors), id).value;
              var v' := WithStanding(v, Suspend(StandingOf(v)));
              r == Some(v') && db.vendors == Put(old(db.vendors), id, v')
  {
    r := UpdateStatus(db, id, Status.Suspended);
  }

  /** `verifyVendor`: the verification only. */
  method VerifyVendor(db: Store, id: Id) returns (r: Option<Vendor>)
    requires db.Valid()
    modifies db`vendors
    ensures db.Valid()
    ensures Find(old(db.vendors), id).None? ==> r.None? && db.vendors == old(db.vendors)
    ensures Find(old(db.vendors), id).Some? ==>
              var v := Find(old(db.vendors), id).value;
              var v' := WithStanding(v, Verify(StandingOf(v)));
              r == Some(v') && db.vendors == Put(old(db.vendors), id, v')
  {
    r := UpdateVerificationStatus(db, id, Verified);
  }

  /** The vendor after a sale of `amount`: a missing (or zero) total counts
      as 0. */
  function Sold(v: Vendor, amount: real): (r: Vendor)
    ensures r.total_sales == Some(RealOr(v.total_sales, 0.0) + amount)
    ensures r == v.(total_sales := r.total_sales)
  {
    v.(total_sales := Some(RealOr(v.total_sales, 0.0) + amount))
  }

  /** Two sales add up to one sale of their sum. */
  lemma SoldTwice(v: Vendor, x: real, y: real)
    ensures Sold(Sold(v, x), y) == Sold(v, x + y)
  {
  }

  /** `incrementSales`: reading a missing vendor's total throws, and
      nothing is written. */
  method IncrementSales(db: Store, id: Id, amount: real) returns (r: Result<Vendor>)
    requires db.Valid()
    modifies db`vendors
    ensures db.Valid()
    ensures Find(old(db.vendors), id).None? ==> r == Err(Thrown) && db.vendors == old(db.vendors)
    ensures Find(old(db.vendors), id).Some? ==>
              var v := Sold(Find(old(db.vendors), id).value, amount);
              r == Ok(v) && db.vendors == Put(old(db.vendors), id, v)
  {
    var vendor := Find(db.vendors, id);
    if vendor.None? {
      return Err(Thrown);
    }
    var updated := db.UpdateVendor(id, (v: Vendor) => Sold(v, amount));
    r := Ok(updated.value);
  }

  /** `findByUsername`: the first vendor with that username, or null. */
  function ByUsername(vendors: seq<Row<Vendor>>, username: string): (r: Option<Row<Vendor>>)
    ensures r.None? <==> forall i :: 0 <= i < |vendors| ==> vendors[i].val.username != username
    ensures r.Some? ==> exists k :: 0 <= k < |vendors| && vendors[k] == r.value &&
                          r.value.val.username == username &&
                          forall j :: 0 <= j < k ==> vendors[j].val.username != username
  {
    First(vendors, (v: Vendor) => v.username == username)
  }

  datatype VendorStats = VendorStats(
    vendorId: Id,
    businessName: string,
    username: string,
    totalProducts: nat,
    totalSales: real,
    rating: real,
    standing: Standing,
    isFeatured: bool,
    commissionRate: Option<real>,
    joinedDate: Option<Timestamp>)

  /** `getVendorStats`: throws for a missing vendor; the product count is
      always 0 and missing totals read as 0. */
  function Stats(vendors: seq<Row<Vendor>>, id: Id): (r: Result<VendorStats>)
    ensures r.Err? <==> Find(vendors, id).None?
    ensures r.Err? ==> r.error == Thrown
    ensures r.Ok? ==>
              var v := Find(vendors, id).value;
              && r.value.vendorId == id
              && r.value.businessName == v.business_name
              && r.value.username == v.username
              && r.value.totalProducts == 0
              && r.value.totalSales == v.total_sales.GetOr(0.0)
              && r.value.rating == v.rating.GetOr(0.0)
              && r.value.standing == StandingOf(v)
              && r.value.isFeatured == v.is_featured
              && r.value.commissionRate == v.commission_rate
              && r.value.joinedDate == v.joined_date
  {
    match Find(vendors, id)
    case None => Err(Thrown)
    case Some(v) =>
      Ok(VendorStats(id, v.business_name, v.username, 0, RealOr(v.total_sales, 0.0), RealOr(v.rating, 0.0),
                     StandingOf(v), v.is_featured, v.commission_rate, v.joined_date))
  }

  /** A sale shows up in the statistics: the reported total grows by the
      amount, and nothing else reported changes. */
  lemma {:induction false} SaleShowsInStats(vendors: seq<Row<Vendor>>, id: Id, amount: real)
    requires Ordered(vendors) && Find(vendors, id).Some?
    ensures var after := Stats(Put(vendors, id, Sold(Find(vendors, id).value, amount)), id);
            && after.Ok? && Stats(vendors, id).Ok?
            && after.value == Stats(vendors, id).value.(totalSales := Stats(vendors, id).value.totalSales + amount)
  {
    PutFind(vendors, id, Sold(Find(vendors, id).value, amount), id);
  }
}
