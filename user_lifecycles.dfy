/** The user `beforeDelete` hook: before a user is deleted, every vendor,
    influencer and buyer profile it owns is deleted, one at a time. A
    failing delete raises an error that blocks the user's deletion; the
    profiles deleted before it stay deleted. */
module UserLifecycles {
  import opened Base
  import opened Table
  import opened Records
  import opened Storage

  /** The ownership filter `{ user: userId }` of each collection. */
  function VendorOwnedBy(userId: Id): Vendor -> bool {
    (v: Vendor) => v.user == Some(userId)
  }

  function InfluencerOwnedBy(userId: Id): Influencer -> bool {
    (i: Influencer) => i.user == Some(userId)
  }

  function BuyerOwnedBy(userId: Id): Buyer -> bool {
    (b: Buyer) => b.user == Some(userId)
  }

  /** The ids deleted before the first one whose delete fails: the longest
      prefix of `ids` with no id in `faulty`. */
  function Attempted(ids: seq<Id>, faulty: set<Id>): (r: seq<Id>)
    ensures |r| <= |ids| && r == ids[..|r|]
    ensures forall j :: 0 <= j < |r| ==> r[j] !in faulty
    ensures |r| < |ids| ==> ids[|r|] in faulty
  {
    if ids == [] || ids[0] in faulty then []
    else [ids[0]] + Attempted(ids[1..], faulty)
  }

  /** A prefix free of faulty ids, stopped at a faulty one or at the end, is
      exactly what `Attempted` deletes. */
  lemma {:induction false} AttemptedIsPrefix(ids: seq<Id>, faulty: set<Id>, n: nat)
    requires n <= |ids|
    requires forall j :: 0 <= j < n ==> ids[j] !in faulty
    requires n < |ids| ==> ids[n] in faulty
    ensures Attempted(ids, faulty) == ids[..n]
  {
    if n > 0 {
      AttemptedIsPrefix(ids[1..], faulty, n - 1);
      assert ids[..n] == [ids[0]] + ids[1..][..n - 1];
    }
  }

  /** Adding the next id to the deleted prefix adds it to the deleted set. */
  lemma MembersStep(ids: seq<Id>, n: nat)
    requires n < |ids|
    ensures Members(ids[..n + 1]) == Members(ids[..n]) + {ids[n]}
  {
    assert ids[..n + 1] == ids[..n] + [ids[n]];
  }

  /** The vendor loop: deletes `ids` in order and stops at the first delete
      that fails; `ok` tells whether all were deleted. */
  method DeleteVendors(db: Store, ids: seq<Id>, faulty: set<Id>) returns (ok: bool)
    requires db.Valid()
    modifies db`vendors
    ensures db.Valid()
    ensures db.vendors == Keep(old(db.vendors), Members(Attempted(ids, faulty)))
    ensures ok <==> Attempted(ids, faulty) == ids
  {
    var i := 0;
    KeepNothing(db.vendors);
    assert Members(ids[..0]) == {};
    while i < |ids|
      invariant db.Valid() && i <= |ids|
      invariant db.vendors == Keep(old(db.vendors), Members(ids[..i]))
      invariant forall j :: 0 <= j < i ==> ids[j] !in faulty
    {
      if ids[i] in faulty {
        AttemptedIsPrefix(ids, faulty, i);
        return false;
      }
      KeepKeep(old(db.vendors), Members(ids[..i]), {ids[i]});
      MembersStep(ids, i);
      db.DeleteVendor(ids[i]);
      i := i + 1;
    }
    AttemptedIsPrefix(ids, faulty, i);
    assert ids[..i] == ids;
    ok := true;
  }

  /** The influencer loop. */
  method DeleteInfluencers(db: Store, ids: seq<Id>, faulty: set<Id>) returns (ok: bool)
    requires db.Valid()
    modifies db`influencers
    ensures db.Valid()
    ensures db.influencers == Keep(old(db.influencers), Members(Attempted(ids, faulty)))
    ensures ok <==> Attempted(ids, faulty) == ids
  {
    var i := 0;
    KeepNothing(db.influencers);
    assert Members(ids[..0]) == {};
    while i < |ids|
      invariant db.Valid() && i <= |ids|
      invariant db.influencers == Keep(old(db.influencers), Members(ids[..i]))
      invariant forall j :: 0 <= j < i ==> ids[j] !in faulty
    {
      if ids[i] in faulty {
        AttemptedIsPrefix(ids, faulty, i);
        return false;
      }
      KeepKeep(old(db.influencers), Members(ids[..i]), {ids[i]});
      MembersStep(ids, i);
      db.DeleteInfluencer(ids[i]);
      i := i + 1;
    }
    AttemptedIsPrefix(ids, faulty, i);
    assert ids[..i] == ids;
    ok := true;
  }

  /** The buyer loop. */
  method DeleteBuyers(db: Store, ids: seq<Id>, faulty: set<Id>) returns (ok: bool)
    requires db.Valid()
    modifies db`buyers
    ensures db.Valid()
    ensures db.buyers == Keep(old(db.buyers), Members(Attempted(ids, faulty)))
    ensures ok <==> Attempted(ids, faulty) == ids
  {
    var i := 0;
    KeepNothing(db.buyers);
    assert Members(ids[..0]) == {};
    while i < |ids|
      invariant db.Valid() && i <= |ids|
      invariant db.buyers == Keep(old(db.buyers), Members(ids[..i]))
      invariant forall j :: 0 <= j < i ==> ids[j] !in faulty
    {
      if ids[i] in faulty {
        AttemptedIsPrefix(ids, faulty, i);
        return false;
      }
      KeepKeep(old(db.buyers), Members(ids[..i]), {ids[i]});
      MembersStep(ids, i);
      db.DeleteBuyer(ids[i]);
      i := i + 1;
    }
    AttemptedIsPrefix(ids, faulty, i);
    assert ids[..i] == ids;
    ok := true;
  }

  /** `beforeDelete`. Nothing happens without a user id. Otherwise the
      owned profiles are looked up first, then deleted collection by
      collection (vendors, influencers, buyers), each in store order; the
      store refuses to delete the ids in `faulty`. The first refusal raises
      an error and ends the hook, keeping what was already deleted. */
  method BeforeDelete(db: Store, userId: Option<Id>, faulty: set<Id>) returns (r: Result<()>)
    requires db.Valid()
    modifies db`vendors, db`influencers, db`buyers
    ensures db.Valid()
    ensures userId.None? ==>
              && r.Ok? && db.vendors == old(db.vendors)
              && db.influencers == old(db.influencers) && db.buyers == old(db.buyers)
    ensures r.Err? ==> r.error == Thrown
    ensures userId.Some? ==>
              var vs := IdsWhere(old(db.vendors), VendorOwnedBy(userId.value));
              var ins := IdsWhere(old(db.influencers), InfluencerOwnedBy(userId.value));
              var bs := IdsWhere(old(db.buyers), BuyerOwnedBy(userId.value));
              var vendorsDone := Attempted(vs, faulty) == vs;
              var influencersDone := vendorsDone && Attempted(ins, faulty) == ins;
              && db.vendors == Keep(old(db.vendors), Members(Attempted(vs, faulty)))
              && db.influencers == (if vendorsDone then Keep(old(db.influencers), Members(Attempted(ins, faulty)))
                                    else old(db.influencers))
              && db.buyers == (if influencersDone then Keep(old(db.buyers), Members(Attempted(bs, faulty)))
                               else old(db.buyers))
              && (r.Ok? <==> influencersDone && Attempted(bs, faulty) == bs)
  {
    if userId.None? {
      return Ok(());
    }
    var vendorProfiles := IdsWhere(db.vendors, VendorOwnedBy(userId.value));
    var influencerProfiles := IdsWhere(db.influencers, InfluencerOwnedBy(userId.value));
    var buyerProfiles := IdsWhere(db.buyers, BuyerOwnedBy(userId.value));
    var ok := DeleteVendors(db, vendorProfiles, faulty);
    if !ok {
      return Err(Thrown);
    }
    ok := DeleteInfluencers(db, influencerProfiles, faulty);
    if !ok {
      return Err(Thrown);
    }
    ok := DeleteBuyers(db, buyerProfiles, faulty);
    if !ok {
      return Err(Thrown);
    }
    r := Ok(());
  }

  /** After a successful cascade no profile of any kind names the user. */
  lemma CascadeLeavesNoProfile(vendors: seq<Row<Vendor>>, influencers: seq<Row<Influencer>>,
                               buyers: seq<Row<Buyer>>, userId: Id)
    ensures forall x :: x in Keep(vendors, Members(IdsWhere(vendors, VendorOwnedBy(userId)))) ==>
              x.val.user != Some(userId)
    ensures forall x :: x in Keep(influencers, Members(IdsWhere(influencers, InfluencerOwnedBy(userId)))) ==>
              x.val.user != Some(userId)
    ensures forall x :: x in Keep(buyers, Members(IdsWhere(buyers, BuyerOwnedBy(userId)))) ==>
              x.val.user != Some(userId)
  {
    DeletingMatchesLeavesNone(vendors, VendorOwnedBy(userId));
    DeletingMatchesLeavesNone(influencers, InfluencerOwnedBy(userId));
    DeletingMatchesLeavesNone(buyers, BuyerOwnedBy(userId));
  }

  /** Whether the cascade completes or stops early, the profiles of other
      users are all still there, and nothing was added. */
  lemma CascadeSparesOthers(vendors: seq<Row<Vendor>>, userId: Id, faulty: set<Id>)
    requires Ordered(vendors)
    ensures var after := Keep(vendors, Members(Attempted(IdsWhere(vendors, VendorOwnedBy(userId)), faulty)));
            && (forall x :: x in vendors && x.val.user != Some(userId) ==> x in after)
            && (forall x :: x in after ==> x in vendors)
  {
    var ids := IdsWhere(vendors, VendorOwnedBy(userId));
    var done := Attempted(ids, faulty);
    assert forall x :: x in done ==> x in ids;
    DeletingMatchesKeepsOthers(vendors, VendorOwnedBy(userId), done);
  }
}
