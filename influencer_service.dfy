/** The influencer service: the approval moves, earnings, the social network
    metrics and the reach queries (statistics, platform and reach filter,
    top influencers). */
module InfluencerService {
  import opened Base
  import opened Table
  import opened Records
  import opened Storage
  import opened Approval

  function StandingOf(b: Influencer): Standing {
    Standing(b.status, b.verification_status)
  }

  /** The profile with its approval state replaced and nothing else changed. */
  function WithStanding(b: Influencer, s: Standing): (r: Influencer)
    ensures StandingOf(r) == s
    ensures r.(status := b.status, verification_status := b.verification_status) == b
  {
    b.(status := s.status, verification_status := s.verification)
  }

  /** `approveInfluencer`: two updates, status then verification. The answer
      is the result of the first, so it still shows the old verification; a
      missing profile is answered with null and nothing is written. */
  method ApproveInfluencer(db: Store, id: Id) returns (r: Option<Influencer>)
    requires db.Valid()
    modifies db`influencers
    ensures db.Valid()
    ensures Find(old(db.influencers), id).None? ==> r.None? && db.influencers == old(db.influencers)
    ensures Find(old(db.influencers), id).Some? ==>
              var b := Find(old(db.influencers), id).value;
              && r == Some(b.(status := Approved))
              && db.influencers == Put(old(db.influencers), id, WithStanding(b, Approve(StandingOf(b))))
  {
    ghost var before := db.influencers;
    r := db.UpdateInfluencer(id, (b: Influencer) => b.(status := Approved));
    if r.Some? {
      PutFind(before, id, r.value, id);
    }
    var _ := db.UpdateInfluencer(id, (b: Influencer) => b.(verification_status := Verified));
    if r.Some? {
      PutPut(before, id, r.value, r.value.(verification_status := Verified));
    }
  }

  /** `rejectInfluencer`: status then verification set to rejected. */
  method RejectInfluencer(db: Store, id: Id) returns (r: Option<Influencer>)
    requires db.Valid()
    modifies db`influencers
    ensures db.Valid()
    ensures Find(old(db.influencers), id).None? ==> r.None? && db.influencers == old(db.influencers)
    ensures Find(old(db.influencers), id).Some? ==>
              var b := Find(old(db.influencers), id).value;
              && r == Some(b.(status := Status.Rejected))
              && db.influencers == Put(old(db.influencers), id, WithStanding(b, Reject(StandingOf(b))))
  {
    ghost var before := db.influencers;
    r := db.UpdateInfluencer(id, (b: Influencer) => b.(status := Status.Rejected));
    if r.Some? {
      PutFind(before, id, r.value, id);
    }
    var _ := db.UpdateInfluencer(id, (b: Influencer) => b.(verification_status := VerificationStatus.Rejected));
    if r.Some? {
      PutPut(before, id, r.value, r.value.(verification_status := VerificationStatus.Rejected));
    }
  }

  /** `suspendInfluencer`: the status only. */
  method SuspendInfluencer(db: Store, id: Id) returns (r: Option<Influencer>)
    requires db.Valid()
    modifies db`influencers
    ensures db.Valid()
    ensures Find(old(db.influencers), id).None? ==> r.None? && db.influencers == old(db.influencers)
    ensures Find(old(db.influencers), id).Some? ==>
              var b := Find(old(db.influencers), id).value;
              var b' := WithStanding(b, Suspend(StandingOf(b)));
              r == Some(b') && db.influencers == Put(old(db.influencers), id, b')
  {
    r := db.UpdateInfluencer(id, (b: Influencer) => b.(status := Status.Suspended));
  }

  /** `verifyCreator`: the creator flag and the verification, not the status. */
  method VerifyCreator(db: Store, id: Id) returns (r: Option<Influencer>)
    requires db.Valid()
    modifies db`influencers
    ensures db.Valid()
    ensures Find(old(db.influencers), id).None? ==> r.None? && db.influencers == old(db.influencers)
    ensures Find(old(db.influencers), id).Some? ==>
              var b := Find(old(db.influencers), id).value;
              var b' := WithStanding(b, Verify(StandingOf(b))).(is_verified_creator := true);
              r == Some(b') && db.influencers == Put(old(db.influencers), id, b')
  {
    r := db.UpdateInfluencer(id, (b: Influencer) => b.(is_verified_creator := true, verification_status := Verified));
  }

  /** The profile after earning `amount`: a missing total counts as 0. */
  function Earned(b: Influencer, amount: real): (r: Influencer)
    ensures r.total_earnings.Some? && r.total_earnings.value == b.total_earnings.GetOr(0.0) + amount
    ensures r == b.(total_earnings := r.total_earnings)
  {
    b.(total_earnings := Some(b.total_earnings.GetOr(0.0) + amount))
  }

  /** Two increments are one increment by their sum. */
  lemma EarnedTwice(b: Influencer, x: real, y: real)
    ensures Earned(Earned(b, x), y) == Earned(b, x + y)
  {
  }

  /** `incrementEarnings`: a missing profile makes the handler throw, and
      nothing is written. */
  method IncrementEarnings(db: Store, id: Id, amount: real) returns (r: Result<Influencer>)
    requires db.Valid()
    modifies db`influencers
    ensures db.Valid()
    ensures Find(old(db.influencers), id).None? ==> r == Err(Thrown) && db.influencers == old(db.influencers)
    ensures Find(old(db.influencers), id).Some? ==>
              var b := Earned(Find(old(db.influencers), id).value, amount);
              r == Ok(b) && db.influencers == Put(old(db.influencers), id, b)
  {
    var influencer := Find(db.influencers, id);
    if influencer.None? {
      return Err(Thrown);
    }
    var updated := db.UpdateInfluencer(id, (b: Influencer) => Earned(b, amount));
    r := Ok(updated.value);
  }

  /** `findByUsername`: the first profile with that username. */
  function ByUsername(influencers: seq<Row<Influencer>>, username: string): (r: Option<Row<Influencer>>)
    ensures r.None? <==> forall i :: 0 <= i < |influencers| ==> influencers[i].val.username != username
    ensures r.Some? ==> exists k :: 0 <= k < |influencers| && influencers[k] == r.value &&
                          r.value.val.username == username &&
                          forall j :: 0 <= j < k ==> influencers[j].val.username != username
  {
    First(influencers, (i: Influencer) => i.username == username)
  }

  /** A network's follower count, a missing one counted as 0. */
  function Followers(n: SocialNetwork): int {
    n.followers_count.GetOr(0)
  }

  /** The follower total over a list of networks: the `reduce` from 0 that
      adds each count, a missing one as 0. */
  function TotalFollowers(ns: seq<SocialNetwork>): (r: int)
    ensures (forall i :: 0 <= i < |ns| ==> ns[i].followers_count.None?) ==> r == 0
    ensures |ns| == 1 ==> r == Followers(ns[0])
  {
    if ns == [] then 0
    else
      assert forall i :: 0 <= i < |ns| - 1 ==> ns[1..][i] == ns[i + 1];
      Followers(ns[0]) + TotalFollowers(ns[1..])
  }

  /** The total of two lists is the sum of their totals. */
  lemma {:induction false} TotalFollowersAppend(a: seq<SocialNetwork>, b: seq<SocialNetwork>)
    ensures TotalFollowers(a + b) == TotalFollowers(a) + TotalFollowers(b)
  {
    if a == [] {
      assert a + b == b;
    } else {
      assert (a + b)[0] == a[0] && (a + b)[1..] == a[1..] + b;
      TotalFollowersAppend(a[1..], b);
    }
  }

  /** With no negative counts, the total bounds each network's count. */
  lemma {:induction false} TotalFollowersBound(ns: seq<SocialNetwork>, k: nat)
    requires forall i :: 0 <= i < |ns| ==> Followers(ns[i]) >= 0
    requires k < |ns|
    ensures 0 <= Followers(ns[k]) <= TotalFollowers(ns)
  {
    TotalFollowersNonNegative(ns[1..]);
    if k > 0 {
      TotalFollowersBound(ns[1..], k - 1);
    }
  }

  lemma {:induction false} TotalFollowersNonNegative(ns: seq<SocialNetwork>)
    requires forall i :: 0 <= i < |ns| ==> Followers(ns[i]) >= 0
    ensures TotalFollowers(ns) >= 0
  {
    if ns != [] {
      TotalFollowersNonNegative(ns[1..]);
    }
  }

  /** The first network marked primary. */
  function Primary(ns: seq<SocialNetwork>): (r: Option<SocialNetwork>)
    ensures r.None? <==> forall i :: 0 <= i < |ns| ==> !ns[i].is_primary
    ensures r.Some? ==> exists k :: 0 <= k < |ns| && ns[k] == r.value && r.value.is_primary &&
                          forall j :: 0 <= j < k ==> !ns[j].is_primary
  {
    if ns == [] then None
    else if ns[0].is_primary then Some(ns[0])
    else
      var r := Primary(ns[1..]);
      assert forall i :: 1 <= i < |ns| ==> ns[i] == ns[1..][i - 1];
      r
  }

  /** The first network on `platform`. */
  function Account(ns: seq<SocialNetwork>, platform: string): (r: Option<SocialNetwork>)
    ensures r.None? <==> forall i :: 0 <= i < |ns| ==> ns[i].platform != platform
    ensures r.Some? ==> exists k :: 0 <= k < |ns| && ns[k] == r.value && r.value.platform == platform &&
                          forall j :: 0 <= j < k ==> ns[j].platform != platform
  {
    if ns == [] then None
    else if ns[0].platform == platform then Some(ns[0])
    else
      var r := Account(ns[1..], platform);
      assert forall i :: 1 <= i < |ns| ==> ns[i] == ns[1..][i - 1];
      r
  }

  /** `getInfluencerStats` without its floating-point averages. */
  datatype InfluencerStats = InfluencerStats(
    influencerId: Id,
    displayName: string,
    username: string,
    totalFollowers: int,
    platformCount: nat,
    primaryPlatform: Option<string>,
    primaryPlatformFollowers: int,
    totalEarnings: real,
    rating: real,
    standing: Standing,
    isVerifiedCreator: bool,
    isFeatured: bool,
    commissionRate: Option<real>,
    joinedDate: Option<Timestamp>)

  /** `getInfluencerStats`: throws for a missing profile. */
  function Stats(influencers: seq<Row<Influencer>>, id: Id): (r: Result<InfluencerStats>)
    ensures r.Err? <==> Find(influencers, id).None?
    ensures r.Err? ==> r.error == Thrown
    ensures r.Ok? ==>
              var b := Find(influencers, id).value;
              var p := Primary(b.social_networks);
              && r.value.influencerId == id
              && r.value.displayName == b.display_name
              && r.value.username == b.username
              && r.value.totalFollowers == TotalFollowers(b.social_networks)
              && r.value.platformCount == |b.social_networks|
              && (r.value.primaryPlatform.Some? <==> p.Some? && p.value.platform != "")
              && (r.value.primaryPlatform.Some? ==> r.value.primaryPlatform.value == p.value.platform)
              && r.value.primaryPlatformFollowers == (if p.Some? then Followers(p.value) else 0)
              && r.value.totalEarnings == b.total_earnings.GetOr(0.0)
              && r.value.rating == b.rating.GetOr(0.0)
              && r.value.standing == StandingOf(b)
              && r.value.isVerifiedCreator == b.is_verified_creator
              && r.value.isFeatured == b.is_featured
              && r.value.commissionRate == b.commission_rate
              && r.value.joinedDate == b.joined_date
  {
    match Find(influencers, id)
    case None => Err(Thrown)
    case Some(b) =>
      var p := Primary(b.social_networks);
      Ok(InfluencerStats(
        id,
        b.display_name,
        b.username,
        TotalFollowers(b.social_networks),
        |b.social_networks|,
        if p.Some? && p.value.platform != "" then Some(p.value.platform) else None,
        if p.Some? then Followers(p.value) else 0,
        RealOr(b.total_earnings, 0.0),
        RealOr(b.rating, 0.0),
        StandingOf(b),
        b.is_verified_creator,
        b.is_featured,
        b.commission_rate,
        b.joined_date))
  }

  /** The reach test of `findByPlatformAndReach`: the first network on the
      platform has between `minFollowers` and `maxFollowers` followers. */
  predicate Reaches(b: Influencer, platform: string, minFollowers: int, maxFollowers: Option<int>) {
    var account := Account(b.social_networks, platform);
    && account.Some?
    && Followers(account.value) >= minFollowers
    && (maxFollowers.None? || Followers(account.value) <= maxFollowers.value)
  }

  /** `findByPlatformAndReach`: the approved profiles that pass the reach
      test, in store order. */
  function ByPlatformAndReach(influencers: seq<Row<Influencer>>, platform: string,
                              minFollowers: int, maxFollowers: Option<int>): (r: seq<Row<Influencer>>)
    ensures forall x :: x in r <==>
              x in influencers && x.val.status == Approved && Reaches(x.val, platform, minFollowers, maxFollowers)
  {
    Where(influencers, (b: Influencer) => b.status == Approved && Reaches(b, platform, minFollowers, maxFollowers))
  }

  /** Widening the follower window never drops a profile. */
  lemma ReachWidens(b: Influencer, platform: string, lo: int, lo': int, hi: Option<int>, hi': Option<int>)
    requires lo' <= lo
    requires hi'.None? || (hi.Some? && hi.value <= hi'.value)
    requires Reaches(b, platform, lo, hi)
    ensures Reaches(b, platform, lo', hi')
  {
  }

  /** A metrics update for one platform: the fields it carries. */
  datatype NetworkUpdate = NetworkUpdate(
    platform: string,
    followers_count: Option<int>,
    engagement_rate: Option<real>,
    is_primary: Option<bool>)

  /** The first update naming `platform`. */
  function UpdateFor(updates: seq<NetworkUpdate>, platform: string): (r: Option<NetworkUpdate>)
    ensures r.None? <==> forall k :: 0 <= k < |updates| ==> updates[k].platform != platform
    ensures r.Some? ==> r.value in updates && r.value.platform == platform
    ensures r.Some? ==> exists k :: 0 <= k < |updates| && updates[k] == r.value &&
                          forall j :: 0 <= j < k ==> updates[j].platform != platform
  {
    if updates == [] then None
    else if updates[0].platform == platform then Some(updates[0])
    else
      var r := UpdateFor(updates[1..], platform);
      assert forall k :: 1 <= k < |updates| ==> updates[k] == updates[1..][k - 1];
      r
  }

  /** `{...network, ...update, last_updated: now}`. */
  function Overlay(n: SocialNetwork, u: NetworkUpdate, now: Timestamp): SocialNetwork {
    SocialNetwork(
      u.platform,
      if u.followers_count.Some? then u.followers_count else n.followers_count,
      if u.engagement_rate.Some? then u.engagement_rate else n.engagement_rate,
      u.is_primary.GetOr(n.is_primary),
      Some(now))
  }

  /** The networks after `updateSocialMetrics`: same length and order, each
      network with an update for its platform overlaid with the first such
      update and stamped, every other network unchanged. */
  function Merged(ns: seq<SocialNetwork>, updates: seq<NetworkUpdate>, now: Timestamp): (r: seq<SocialNetwork>)
    ensures |r| == |ns|
    ensures forall i :: 0 <= i < |ns| ==> r[i].platform == ns[i].platform
    ensures forall i :: 0 <= i < |ns| && UpdateFor(updates, ns[i].platform).None? ==> r[i] == ns[i]
    ensures forall i :: 0 <= i < |ns| && UpdateFor(updates, ns[i].platform).Some? ==>
              r[i] == Overlay(ns[i], UpdateFor(updates, ns[i].platform).value, now)
  {
    if ns == [] then []
    else
      var u := UpdateFor(updates, ns[0].platform);
      [if u.Some? then Overlay(ns[0], u.value, now) else ns[0]] + Merged(ns[1..], updates, now)
  }

  /** Applying the same updates twice at the same time is applying them once. */
  lemma MergedIdempotent(ns: seq<SocialNetwork>, updates: seq<NetworkUpdate>, now: Timestamp)
    ensures Merged(Merged(ns, updates, now), updates, now) == Merged(ns, updates, now)
  {
    var once := Merged(ns, updates, now);
    var twice := Merged(once, updates, now);
    assert |twice| == |once|;
    forall i | 0 <= i < |ns| ensures twice[i] == once[i] {
      assert once[i].platform == ns[i].platform;
    }
  }

  /** Updates that carry no follower counts leave the follower total as it was. */
  lemma {:induction false} MergedKeepsTotal(ns: seq<SocialNetwork>, updates: seq<NetworkUpdate>, now: Timestamp)
    requires forall k :: 0 <= k < |updates| ==> updates[k].followers_count.None?
    ensures TotalFollowers(Merged(ns, updates, now)) == TotalFollowers(ns)
  {
    if ns != [] {
      var m := Merged(ns, updates, now);
      assert m[1..] == Merged(ns[1..], updates, now);
      MergedKeepsTotal(ns[1..], updates, now);
      var u := UpdateFor(updates, ns[0].platform);
      if u.Some? {
        var k :| 0 <= k < |updates| && updates[k] == u.value;
      }
    }
  }

  /** `updateSocialMetrics`: throws for a missing profile; else writes the
      merged networks. */
  method UpdateSocialMetrics(db: Store, id: Id, updates: seq<NetworkUpdate>, now: Timestamp) returns (r: Result<Influencer>)
    requires db.Valid()
    modifies db`influencers
    ensures db.Valid()
    ensures Find(old(db.influencers), id).None? ==> r == Err(Thrown) && db.influencers == old(db.influencers)
    ensures Find(old(db.influencers), id).Some? ==>
              var b := Find(old(db.influencers), id).value;
              var b' := b.(social_networks := Merged(b.social_networks, updates, now));
              r == Ok(b') && db.influencers == Put(old(db.influencers), id, b')
  {
    var influencer := Find(db.influencers, id);
    if influencer.None? {
      return Err(Thrown);
    }
    var networks := Merged(influencer.value.social_networks, updates, now);
    var updated := db.UpdateInfluencer(id, (b: Influencer) => b.(social_networks := networks));
    r := Ok(updated.value);
  }

  /** A profile with the follower count the ranking sorts on. */
  datatype Ranked = Ranked(row: Row<Influencer>, total_followers: int)

  /** The count `findTopInfluencers` ranks by: followers on `platform` when
      one is named, else the total over all networks. */
  function Reach(b: Influencer, platform: Option<string>): int {
    if StrTruthy(platform) then
      var account := Account(b.social_networks, platform.value);
      if account.Some? then Followers(account.value) else 0
    else TotalFollowers(b.social_networks)
  }

  /** The approved and verified profiles with their reach, in store order. */
  function Candidates(influencers: seq<Row<Influencer>>, platform: Option<string>): (r: seq<Ranked>)
    ensures |r| <= |influencers|
    ensures forall x :: x in r <==>
              x.row in influencers && Listed(StandingOf(x.row.val)) && x.total_followers == Reach(x.row.val, platform)
  {
    if influencers == [] then []
    else
      var b := influencers[0];
      var rest := Candidates(influencers[1..], platform);
      if Listed(StandingOf(b.val)) then [Ranked(b, Reach(b.val, platform))] + rest else rest
  }

  ghost predicate SortedDesc(s: seq<Ranked>) {
    forall i, j :: 0 <= i < j < |s| ==> s[i].total_followers >= s[j].total_followers
  }

  /** Inserts `x` before the first entry it is not below. */
  function Insert(x: Ranked, s: seq<Ranked>): (r: seq<Ranked>)
    ensures |r| == |s| + 1
    ensures multiset(r) == multiset(s) + multiset{x}
  {
    if s == [] || x.total_followers >= s[0].total_followers then [x] + s
    else
      assert s == [s[0]] + s[1..];
      [s[0]] + Insert(x, s[1..])
  }

  /** Insertion keeps a descending ranking descending. */
  lemma {:induction false} InsertKeepsSorted(x: Ranked, s: seq<Ranked>)
    requires SortedDesc(s)
    ensures SortedDesc(Insert(x, s))
  {
    if s == [] || x.total_followers >= s[0].total_followers {
    } else {
      assert s == [s[0]] + s[1..];
      var t := Insert(x, s[1..]);
      InsertKeepsSorted(x, s[1..]);
      var r := [s[0]] + t;
      assert r == Insert(x, s);
      // The new head is `x` or the old second entry, both below `s[0]`.
      assert t[0] == x || t[0] == s[1];
      forall i, j | 0 <= i < j < |r| ensures r[i].total_followers >= r[j].total_followers {
        assert r[j] == t[j - 1];
        if i == 0 {
          assert t[0].total_followers >= t[j - 1].total_followers;
        } else {
          assert r[i] == t[i - 1];
        }
      }
    }
  }

  /** The sort `findTopInfluencers` applies: decreasing reach. */
  function SortDesc(s: seq<Ranked>): (r: seq<Ranked>)
    ensures |r| == |s|
    ensures multiset(r) == multiset(s)
    ensures SortedDesc(r)
  {
    if s == [] then []
    else
      assert s == [s[0]] + s[1..];
      InsertKeepsSorted(s[0], SortDesc(s[1..]));
      Insert(s[0], SortDesc(s[1..]))
  }

  /** `slice(0, limit)`: a negative limit counts from the end. */
  function Slice(s: seq<Ranked>, limit: int): (r: seq<Ranked>)
    ensures 0 <= limit ==> |r| == if limit < |s| then limit else |s|
    ensures limit < 0 ==> |r| == if |s| + limit > 0 then |s| + limit else 0
    ensures r == s[..|r|]
    ensures multiset(r) <= multiset(s)
  {
    var end := if limit >= 0 then (if limit < |s| then limit else |s|)
               else (if |s| + limit > 0 then |s| + limit else 0);
    PrefixMultiset(s, end);
    s[..end]
  }

  /** `findTopInfluencers`: the approved and verified profiles ranked by
      reach, cut to `limit`. */
  function TopInfluencers(influencers: seq<Row<Influencer>>, limit: int, platform: Option<string>): (r: seq<Ranked>)
    ensures SortedDesc(r)
    ensures forall x :: x in r ==> x in Candidates(influencers, platform)
    ensures multiset(r) <= multiset(Candidates(influencers, platform))
    ensures 0 <= limit ==> |r| == if limit < |Candidates(influencers, platform)| then limit else |Candidates(influencers, platform)|
    ensures limit < 0 ==> |r| == if |Candidates(influencers, platform)| + limit > 0 then |Candidates(influencers, platform)| + limit else 0
    ensures forall x :: x in Candidates(influencers, platform) && x !in r ==>
              forall k :: 0 <= k < |r| ==> x.total_followers <= r[k].total_followers
  {
    var c := Candidates(influencers, platform);
    RankingIsTop(c, limit);
    Slice(SortDesc(c), limit)
  }

  /** Cutting the sorted ranking keeps a descending selection of the
      candidates, and the best of them. */
  lemma RankingIsTop(c: seq<Ranked>, limit: int)
    ensures var r := Slice(SortDesc(c), limit);
            && SortedDesc(r)
            && (forall x :: x in r ==> x in c)
            && multiset(r) <= multiset(c)
            && (forall x :: x in c && x !in r ==>
                  forall k :: 0 <= k < |r| ==> x.total_followers <= r[k].total_followers)
  {
    var s := SortDesc(c);
    var r := Slice(s, limit);
    SameElements(s, c);
    PrefixOfSortedIsTop(s, |r|);
    forall x | x in r ensures x in c {
      assert x in multiset(r);
    }
  }

  /** A prefix holds no element more often than the whole sequence. */
  lemma PrefixMultiset(s: seq<Ranked>, n: nat)
    requires n <= |s|
    ensures multiset(s[..n]) <= multiset(s)
  {
    assert s == s[..n] + s[n..];
  }

  lemma SameElements(a: seq<Ranked>, b: seq<Ranked>)
    requires multiset(a) == multiset(b)
    ensures forall x :: x in a <==> x in b
  {
    forall x ensures x in a <==> x in b {
      assert x in a <==> x in multiset(a);
      assert x in b <==> x in multiset(b);
    }
  }

  /** What a prefix of a sorted ranking leaves out ranks no higher than
      anything it keeps. */
  lemma PrefixOfSortedIsTop(s: seq<Ranked>, n: nat)
    requires SortedDesc(s) && n <= |s|
    ensures forall x :: x in s && x !in s[..n] ==> forall k :: 0 <= k < n ==> x.total_followers <= s[k].total_followers
  {
    forall x, k | x in s && x !in s[..n] && 0 <= k < n
      ensures x.total_followers <= s[k].total_followers
    {
      assert forall i :: 0 <= i < n ==> s[..n][i] == s[i];
      var j :| 0 <= j < |s| && s[j] == x;
    }
  }
}
