/** The vendor controller: creation defaults, the admin moves written as one
    update each, the username lookup and the featured listing. */
module VendorController {
  import opened Base
  import opened Table
  import opened Records
  import opened Storage
  import Approval
  import opened VendorService

  /** The in-place defaults `create` gives the request body: the caller as
      owner when none is named, and the creation time as `joined_date`. */
  method ApplyVendorDefaults(data: Vendor, user: Option<Caller>, now: Timestamp) returns (d: Vendor)
    ensures d.user == if user.Some? && data.user.None? then Some(user.value.id) else data.user
    ensures d.joined_date == if data.joined_date.None? then Some(now) else data.joined_date
    ensures d == data.(user := d.user, joined_date := d.joined_date)
  {
    d := data;
    if user.Some? && d.user.None? {
      d := d.(user := Some(user.value.id));
    }
    if d.joined_date.None? {
      d := d.(joined_date := Some(now));
    }
  }

  /** `create`: stores the defaulted body under a fresh id. */
  method Create(db: Store, user: Option<Caller>, data: Vendor, now: Timestamp) returns (id: Id)
    requires db.Valid()
    modifies db`vendors, db`nextId
    ensures db.Valid()
    ensures id == old(db.nextId) && |db.vendors| == |old(db.vendors)| + 1
    ensures db.vendors[..|old(db.vendors)|] == old(db.vendors) && db.vendors[|old(db.vendors)|].id == id
    ensures var v := db.vendors[|old(db.vendors)|].val;
            && v == data.(user := v.user, joined_date := v.joined_date)
            && (data.user.Some? ==> v.user == data.user)
            && (data.user.None? && user.Some? ==> v.user == Some(user.value.id))
            && (data.user.None? && user.None? ==> v.user.None?)
            && v.joined_date == (if data.joined_date.None? then Some(now) else data.joined_date)
  {
    var d := ApplyVendorDefaults(data, user, now);
    id := db.CreateVendor(d);
  }

  /** `findByUsername`: not found when no vendor has the username, else the
      first that does. */
  method FindByUsername(db: Store, username: string) returns (r: Result<Row<Vendor>>)
    ensures r == Err(NotFound) <==> forall i :: 0 <= i < |db.vendors| ==> db.vendors[i].val.username != username
    ensures r.Err? ==> r.error == NotFound
    ensures r.Ok? ==> r.value in db.vendors && r.value.val.username == username
    ensures r.Ok? ==> Some(r.value) == ByUsername(db.vendors, username)
  {
    var entities := ByUsername(db.vendors, username);
    if entities.None? {
      return Err(NotFound);
    }
    r := Ok(entities.value);
  }

  /** `findFeatured`: the featured approved vendors, in store order. */
  function FindFeatured(vendors: seq<Row<Vendor>>): (r: seq<Row<Vendor>>)
    ensures forall x :: x in r <==> x in vendors && x.val.is_featured && x.val.status == Approved
  {
    Where(vendors, (v: Vendor) => v.is_featured && v.status == Approved)
  }

  /** Suspending a vendor takes it off the featured listing. */
  lemma SuspendedNotFeatured(vendors: seq<Row<Vendor>>, id: Id, v: Vendor)
    ensures forall x :: x in FindFeatured(Put(vendors, id, WithStanding(v, Approval.Suspend(StandingOf(v))))) ==> x.id != id
  {
    var t := Put(vendors, id, WithStanding(v, Approval.Suspend(StandingOf(v))));
    forall x | x in FindFeatured(t) ensures x.id != id {
      var i :| 0 <= i < |t| && t[i] == x;
    }
  }

  /** Approving a stored featured vendor puts it on the featured listing. */
  lemma ApprovedFeaturedIsListed(vendors: seq<Row<Vendor>>, id: Id)
    requires Find(vendors, id).Some? && Find(vendors, id).value.is_featured
    ensures var v := Find(vendors, id).value;
            Row(id, WithStanding(v, Approval.Approve(StandingOf(v)))) in FindFeatured(Put(vendors, id, WithStanding(v, Approval.Approve(StandingOf(v)))))
  {
    var v := Find(vendors, id).value;
    var t := Put(vendors, id, WithStanding(v, Approval.Approve(StandingOf(v))));
    var k :| 0 <= k < |vendors| && vendors[k] == Row(id, v);
    assert t[k] == Row(id, WithStanding(v, Approval.Approve(StandingOf(v))));
  }

  /** `approve`: status and verification in one update, so the answer shows
      both. */
  method Approve(db: Store, id: Id) returns (r: Option<Vendor>)
    requires db.Valid()
    modifies db`vendors
    ensures db.Valid()
    ensures Find(old(db.vendors), id).None? ==> r.None? && db.vendors == old(db.vendors)
    ensures Find(old(db.vendors), id).Some? ==>
              var v := Find(old(db.vendors), id).value;
              var v' := WithStanding(v, Approval.Approve(StandingOf(v)));
              && r == Some(v') && Approval.Listed(StandingOf(v'))
              && db.vendors == Put(old(db.vendors), id, v')
  {
    r := db.UpdateVendor(id, (v: Vendor) => v.(status := Approved, verification_status := Verified));
  }

  /** `reject`: rejected status and verification in one update. */
  method Reject(db: Store, id: Id) returns (r: Option<Vendor>)
    requires db.Valid()
    modifies db`vendors
    ensures db.Valid()
    ensures Find(old(db.vendors), id).None? ==> r.None? && db.vendors == old(db.vendors)
    ensures Find(old(db.vendors), id).Some? ==>
              var v := Find(old(db.vendors), id).value;
              var v' := WithStanding(v, Approval.Reject(StandingOf(v)));
              r == Some(v') && db.vendors == Put(old(db.vendors), id, v')
  {
    r := db.UpdateVendor(id, (v: Vendor) =>
                           v.(status := Status.Rejected, verification_status := VerificationStatus.Rejected));
  }

  /** `suspend`: the status only. */
  method Suspend(db: Store, id: Id) returns (r: Option<Vendor>)
    requires db.Valid()
    modifies db`vendors
    ensures db.Valid()
    ensures Find(old(db.vendors), id).None? ==> r.None? && db.vendors == old(db.vendors)
    ensures Find(old(db.vendors), id).Some? ==>
              var v := Find(old(db.vendors), id).value;
              var v' := WithStanding(v, Approval.Suspend(StandingOf(v)));
              r == Some(v') && db.vendors == Put(old(db.vendors), id, v')
  {
    r := db.UpdateVendor(id, (v: Vendor) => v.(status := Status.Suspended));
  }
}
