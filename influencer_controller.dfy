/** The influencer controller: creation defaults, the admin moves written as
    one update each, the username lookup, the listing filters and the
    statistics endpoint. */
module InfluencerController {
  import opened Base
  import opened Table
  import opened Records
  import opened Storage
  import Approval
  import opened InfluencerService

  /** The in-place defaults `create` gives the request body: the caller as
      owner when none is named, and the creation time as `joined_date`. */
  method ApplyInfluencerDefaults(data: Influencer, user: Option<Caller>, now: Timestamp) returns (d: Influencer)
    ensures d.user == if user.Some? && data.user.None? then Some(user.value.id) else data.user
    ensures d.joined_date == if data.joined_date.None? then Some(now) else data.joined_date
    ensures d == data.(user := d.user, joined_date := d.joined_date)
  {
    d := data;
    if user.Some? && d.user.None? {
      d := d.(user := Some(user.value.id));
    }
    if d.joined_date.None? {
      d := d.(joined_date := Some(now));
    }
  }

  /** `create`: stores the defaulted body under a fresh id. */
  method Create(db: Store, user: Option<Caller>, data: Influencer, now: Timestamp) returns (id: Id)
    requires db.Valid()
    modifies db`influencers, db`nextId
    ensures db.Valid()
    ensures id == old(db.nextId) && |db.influencers| == |old(db.influencers)| + 1
    ensures db.influencers[..|old(db.influencers)|] == old(db.influencers) && db.influencers[|old(db.influencers)|].id == id
    ensures var b := db.influencers[|old(db.influencers)|].val;
            && b == data.(user := b.user, joined_date := b.joined_date)
            && (data.user.Some? ==> b.user == data.user)
            && (data.user.None? && user.Some? ==> b.user == Some(user.value.id))
            && (data.user.None? && user.None? ==> b.user.None?)
            && b.joined_date == (if data.joined_date.None? then Some(now) else data.joined_date)
  {
    var d := ApplyInfluencerDefaults(data, user, now);
    id := db.CreateInfluencer(d);
  }

  /** `approve`: status and verification in one update, so the answer shows
      both. */
  method Approve(db: Store, id: Id) returns (r: Option<Influencer>)
    requires db.Valid()
    modifies db`influencers
    ensures db.Valid()
    ensures Find(old(db.influencers), id).None? ==> r.None? && db.influencers == old(db.influencers)
    ensures Find(old(db.influencers), id).Some? ==>
              var b := Find(old(db.influencers), id).value;
              var b' := WithStanding(b, Approval.Approve(StandingOf(b)));
              && r == Some(b') && Approval.Listed(StandingOf(b'))
              && db.influencers == Put(old(db.influencers), id, b')
  {
    r := db.UpdateInfluencer(id, (b: Influencer) => b.(status := Approved, verification_status := Verified));
  }

  /** `reject`: rejected status and verification in one update. */
  method Reject(db: Store, id: Id) returns (r: Option<Influencer>)
    requires db.Valid()
    modifies db`influencers
    ensures db.Valid()
    ensures Find(old(db.influencers), id).None? ==> r.None? && db.influencers == old(db.influencers)
    ensures Find(old(db.influencers), id).Some? ==>
              var b := Find(old(db.influencers), id).value;
              var b' := WithStanding(b, Approval.Reject(StandingOf(b)));
              r == Some(b') && db.influencers == Put(old(db.influencers), id, b')
  {
    r := db.UpdateInfluencer(id, (b: Influencer) =>
                               b.(status := Status.Rejected, verification_status := VerificationStatus.Rejected));
  }

  /** `suspend`: the status only. */
  method Suspend(db: Store, id: Id) returns (r: Option<Influencer>)
    requires db.Valid()
    modifies db`influencers
    ensures db.Valid()
    ensures Find(old(db.influencers), id).None? ==> r.None? && db.influencers == old(db.influencers)
    ensures Find(old(db.influencers), id).Some? ==>
              var b := Find(old(db.influencers), id).value;
              var b' := WithStanding(b, Approval.Suspend(StandingOf(b)));
              r == Some(b') && db.influencers == Put(old(db.influencers), id, b')
  {
    r := db.UpdateInfluencer(id, (b: Influencer) => b.(status := Status.Suspended));
  }

  /** `verifyCreator`: the creator flag and the verification, not the status. */
  method VerifyCreator(db: Store, id: Id) returns (r: Option<Influencer>)
    requires db.Valid()
    modifies db`influencers
    ensures db.Valid()
    ensures Find(old(db.influencers), id).None? ==> r.None? && db.influencers == old(db.influencers)
    ensures Find(old(db.influencers), id).Some? ==>
              var b := Find(old(db.influencers), id).value;
              var b' := WithStanding(b, Approval.Verify(StandingOf(b))).(is_verified_creator := true);
              r == Some(b') && db.influencers == Put(old(db.influencers), id, b')
  {
    r := db.UpdateInfluencer(id, (b: Influencer) => b.(is_verified_creator := true, verification_status := Verified));
  }

  /** `findByUsername`: not found when no profile has the username, else the
      first that does. */
  method FindByUsername(db: Store, username: string) returns (r: Result<Row<Influencer>>)
    ensures r == Err(NotFound) <==> forall i :: 0 <= i < |db.influencers| ==> db.influencers[i].val.username != username
    ensures r.Err? ==> r.error == NotFound
    ensures r.Ok? ==> r.value in db.influencers && r.value.val.username == username
    ensures r.Ok? ==> Some(r.value) == ByUsername(db.influencers, username)
  {
    var entities := ByUsername(db.influencers, username);
    if entities.None? {
      return Err(NotFound);
    }
    r := Ok(entities.value);
  }

  /** `findFeatured`: the featured approved profiles, in store order. */
  function FindFeatured(influencers: seq<Row<Influencer>>): (r: seq<Row<Influencer>>)
    ensures forall x :: x in r <==> x in influencers && x.val.is_featured && x.val.status == Approved
  {
    Where(influencers, (b: Influencer) => b.is_featured && b.status == Approved)
  }

  /** `findVerifiedCreators`: the approved verified creators, in store order. */
  function FindVerifiedCreators(influencers: seq<Row<Influencer>>): (r: seq<Row<Influencer>>)
    ensures forall x :: x in r <==> x in influencers && x.val.is_verified_creator && x.val.status == Approved
  {
    Where(influencers, (b: Influencer) => b.is_verified_creator && b.status == Approved)
  }

  /** The answer of `getStats` without its floating-point average: the
      service statistics less the primary platform's own follower count. */
  datatype ProfileStats = ProfileStats(
    influencerId: Id,
    displayName: string,
    username: string,
    totalFollowers: int,
    totalEarnings: real,
    rating: real,
    standing: Approval.Standing,
    isVerifiedCreator: bool,
    isFeatured: bool,
    commissionRate: Option<real>,
    platformCount: nat,
    primaryPlatform: Option<string>,
    joinedDate: Option<Timestamp>)

  /** The controller reports every field it shares with the service
      statistics with the same value. */
  predicate AgreesWithService(c: ProfileStats, s: InfluencerStats) {
    && c.influencerId == s.influencerId
    && c.displayName == s.displayName
    && c.username == s.username
    && c.totalFollowers == s.totalFollowers
    && c.totalEarnings == s.totalEarnings
    && c.rating == s.rating
    && c.standing == s.standing
    && c.isVerifiedCreator == s.isVerifiedCreator
    && c.isFeatured == s.isFeatured
    && c.commissionRate == s.commissionRate
    && c.platformCount == s.platformCount
    && c.primaryPlatform == s.primaryPlatform
    && c.joinedDate == s.joinedDate
  }

  /** `getStats`: not found for a missing profile; otherwise the controller
      recomputes the statistics from the profile, and they agree with the
      service's on every field both report. */
  method GetStats(db: Store, id: Id) returns (r: Result<ProfileStats>)
    ensures r.Err? <==> Find(db.influencers, id).None?
    ensures r.Err? ==> r.error == NotFound
    ensures r.Ok? ==> r.value.totalFollowers == TotalFollowers(Find(db.influencers, id).value.social_networks)
    ensures r.Ok? ==> r.value.influencerId == id
    ensures r.Ok? ==> AgreesWithService(r.value, Stats(db.influencers, id).value)
  {
    var influencer := Find(db.influencers, id);
    if influencer.None? {
      return Err(NotFound);
    }
    var b := influencer.value;
    var primary := Primary(b.social_networks);
    r := Ok(ProfileStats(
      id,
      b.display_name,
      b.username,
      TotalFollowers(b.social_networks),
      RealOr(b.total_earnings, 0.0),
      RealOr(b.rating, 0.0),
      StandingOf(b),
      b.is_verified_creator,
      b.is_featured,
      b.commission_rate,
      |b.social_networks|,
      if primary.Some? && primary.value.platform != "" then Some(primary.value.platform) else None,
      b.joined_date));
  }
}
