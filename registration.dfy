/** The users-permissions `register` override: a request that names a role
    kind creates a user with that role and the matching vendor, influencer
    or buyer profile, and deletes the user again when the profile cannot be
    created. */
module Registration {
  import opened Base
  import opened Table
  import opened Records
  import opened Storage
  import Approval
  import VendorService
  import InfluencerService

  /** The optional `profile_data` of the request; an absent object reads as
      every field absent. */
  datatype ProfileData = ProfileData(
    business_name: Option<string>,
    username: Option<string>,
    phone: Option<string>,
    description: Option<string>,
    website: Option<string>,
    display_name: Option<string>,
    bio: Option<string>,
    first_name: Option<string>,
    last_name: Option<string>,
    newsletter_subscribed: Option<bool>,
    marketing_consent: Option<bool>)

  datatype RegisterRequest = RegisterRequest(
    email: Option<string>,
    username: Option<string>,
    password: Option<string>,
    role_type: Option<string>,
    profile_data: ProfileData)

  /** The three profile kinds a registration may ask for. */
  datatype Kind = VendorKind | InfluencerKind | BuyerKind

  /** The accepted `role_type` values. */
  function KindOf(roleType: string): (k: Option<Kind>)
    ensures k.Some? <==> roleType in ["vendor", "influencer", "buyer"]
  {
    if roleType == "vendor" then Some(VendorKind)
    else if roleType == "influencer" then Some(InfluencerKind)
    else if roleType == "buyer" then Some(BuyerKind)
    else None
  }

  /** The users-permissions role each kind is given. */
  function RoleName(k: Kind): string {
    match k
    case VendorKind => "Vendor"
    case InfluencerKind => "Influencer"
    case BuyerKind => "Buyer"
  }

  /** The first role record with the kind's role name. */
  function RoleFor(roles: seq<Row<Role>>, k: Kind): (r: Option<Row<Role>>)
    ensures r.None? <==> forall i :: 0 <= i < |roles| ==> roles[i].val.name != RoleName(k)
    ensures r.Some? ==> exists n :: 0 <= n < |roles| && roles[n] == r.value &&
                          r.value.val.name == RoleName(k) &&
                          forall j :: 0 <= j < n ==> roles[j].val.name != RoleName(k)
  {
    First(roles, (role: Role) => role.name == RoleName(k))
  }

  /** The first user holding `email`. */
  function Holder(users: seq<Row<User>>, email: string): (r: Option<Row<User>>)
    ensures r.None? <==> forall i :: 0 <= i < |users| ==> users[i].val.email != email
    ensures r.Some? ==> exists n :: 0 <= n < |users| && users[n] == r.value &&
                          r.value.val.email == email &&
                          forall j :: 0 <= j < n ==> users[j].val.email != email
  {
    First(users, (u: User) => u.email == email)
  }

  /** No two users share an email. */
  ghost predicate UniqueEmails(users: seq<Row<User>>) {
    forall i, j :: 0 <= i < j < |users| ==> users[i].val.email != users[j].val.email
  }

  /** Email, username and password are all present and non-empty. */
  predicate Complete(req: RegisterRequest) {
    StrTruthy(req.email) && StrTruthy(req.username) && StrTruthy(req.password)
  }

  /** `x || null` on an optional string. */
  function OrNull(o: Option<string>): (r: Option<string>)
    ensures r.Some? <==> StrTruthy(o)
    ensures r.Some? ==> r == o
  {
    if StrTruthy(o) then o else None
  }

  /** `x || false` on an optional flag. */
  function OrFalse(o: Option<bool>): (r: bool)
    ensures r <==> o == Some(true)
  {
    o.Some? && o.value
  }

  /** The vendor profile a registration seeds. */
  function VendorProfile(pd: ProfileData, username: string, email: string, user: Id, now: Timestamp): (v: Vendor)
    ensures v.user == Some(user) && v.contact_email == email && v.joined_date == Some(now)
    ensures VendorService.StandingOf(v) == Approval.Registered && !Approval.Listed(VendorService.StandingOf(v))
    ensures v.rating == Some(0.0) && v.total_sales == Some(0.0) && v.commission_rate == Some(0.15) && !v.is_featured
    ensures username != "" ==> v.business_name != "" && v.username != ""
  {
    Vendor(Some(user), StrOr(pd.business_name, username), StrOr(pd.username, username), email,
           OrNull(pd.phone), OrNull(pd.description), OrNull(pd.website), Some(now),
           Pending, Unverified, Some(0.0), Some(0.0), Some(0.15), false)
  }

  /** The influencer profile a registration seeds. */
  function InfluencerProfile(pd: ProfileData, username: string, email: string, user: Id, now: Timestamp): (i: Influencer)
    ensures i.user == Some(user) && i.contact_email == email && i.joined_date == Some(now)
    ensures InfluencerService.StandingOf(i) == Approval.Registered && !Approval.Listed(InfluencerService.StandingOf(i))
    ensures i.rating == Some(0.0) && i.total_earnings == Some(0.0) && i.commission_rate == Some(0.05)
    ensures !i.is_featured && !i.is_verified_creator && i.social_networks == []
    ensures username != "" ==> i.display_name != "" && i.username != ""
  {
    Influencer(Some(user), StrOr(pd.display_name, username), StrOr(pd.username, username), email,
               OrNull(pd.phone), OrNull(pd.bio), Some(now), Pending, Unverified,
               Some(0.0), Some(0.0), Some(0.05), false, false, [])
  }

  /** The buyer profile a registration seeds. */
  function BuyerProfile(pd: ProfileData, username: string, user: Id, now: Timestamp): (b: Buyer)
    ensures b.user == Some(user) && b.customer_since == Some(now) && b.account_status == Active
    ensures b.total_spent == Some(0.0) && b.total_orders == Some(0) && b.loyalty_points == Some(0)
    ensures !b.is_premium && b.wishlist == []
    ensures b.newsletter_subscribed <==> pd.newsletter_subscribed == Some(true)
    ensures b.marketing_consent <==> pd.marketing_consent == Some(true)
    ensures username != "" ==> b.display_name != ""
  {
    Buyer(Some(user), StrOr(pd.first_name, ""), StrOr(pd.last_name, ""), StrOr(pd.display_name, username),
          OrNull(pd.phone), Some(now), Active, Some(0.0), Some(0), Some(0), false,
          OrFalse(pd.newsletter_subscribed), OrFalse(pd.marketing_consent), [])
  }

  /** What a registration answers: handed to the plugin's own handler, or a
      new user with its profile. */
  datatype Outcome = Delegated | Created(user: Id, profile: Id)

  /** Every check passes: a role kind is named, the credentials are there,
      the kind is known, its role exists and the lower-cased email is free. */
  predicate Admissible(users: seq<Row<User>>, roles: seq<Row<Role>>, req: RegisterRequest) {
    && StrTruthy(req.role_type)
    && Complete(req)
    && KindOf(req.role_type.value).Some?
    && RoleFor(roles, KindOf(req.role_type.value).value).Some?
    && Holder(users, Lower(req.email.value)).None?
  }

  /** Adding a user whose email no stored user holds keeps emails unique. */
  lemma UniqueEmailsAppend(users: seq<Row<User>>, id: Id, u: User)
    requires forall i :: 0 <= i < |users| ==> users[i].val.email != u.email
    ensures UniqueEmails(users) ==> UniqueEmails(users + [Row(id, u)])
  {
  }

  /** The profile step of `register`: one profile of the requested kind,
      owned by the new user, appended to its collection. */
  method CreateProfile(db: Store, kind: Kind, pd: ProfileData, username: string, email: string,
                       user: Id, now: Timestamp) returns (profile: Id)
    requires db.Valid()
    modifies db`vendors, db`influencers, db`buyers, db`nextId
    ensures db.Valid()
    ensures db.vendors == (if kind == VendorKind
                           then old(db.vendors) + [Row(profile, VendorProfile(pd, username, email, user, now))]
                           else old(db.vendors))
    ensures db.influencers == (if kind == InfluencerKind
                               then old(db.influencers) + [Row(profile, InfluencerProfile(pd, username, email, user, now))]
                               else old(db.influencers))
    ensures db.buyers == (if kind == BuyerKind
                          then old(db.buyers) + [Row(profile, BuyerProfile(pd, username, user, now))]
                          else old(db.buyers))
  {
    match kind {
      case VendorKind =>
        profile := db.CreateVendor(VendorProfile(pd, username, email, user, now));
      case InfluencerKind =>
        profile := db.CreateInfluencer(InfluencerProfile(pd, username, email, user, now));
      case BuyerKind =>
        profile := db.CreateBuyer(BuyerProfile(pd, username, user, now));
    }
  }

  /** `register`. A request without a role kind is delegated to the plugin's
      handler and writes nothing here. Each failed check answers bad request
      and writes nothing. `profileFails` stands for the store refusing the
      profile: the user just created is deleted again, so no user is left
      without a profile. */
  method Register(db: Store, req: RegisterRequest, now: Timestamp, profileFails: bool) returns (r: Result<Outcome>)
    requires db.Valid()
    modifies db`users, db`vendors, db`influencers, db`buyers, db`nextId
    ensures db.Valid()
    ensures !StrTruthy(req.role_type) <==> r == Ok(Delegated)
    ensures r.Err? ==> r.error == BadRequest
    ensures r.Ok? && r.value.Created? <==> Admissible(old(db.users), db.roles, req) && !profileFails
    ensures !(r.Ok? && r.value.Created?) ==>
              && db.users == old(db.users) && db.vendors == old(db.vendors)
              && db.influencers == old(db.influencers) && db.buyers == old(db.buyers)
    ensures r.Ok? && r.value.Created? ==>
              var kind := KindOf(req.role_type.value).value;
              var username := req.username.value;
              var email := req.email.value;
              var pd := req.profile_data;
              var (user, profile) := (r.value.user, r.value.profile);
              && db.users == old(db.users) + [Row(user, User(username, Lower(email), RoleFor(db.roles, kind).value.id, true, false))]
              && db.vendors == (if kind == VendorKind
                                then old(db.vendors) + [Row(profile, VendorProfile(pd, username, email, user, now))]
                                else old(db.vendors))
              && db.influencers == (if kind == InfluencerKind
                                    then old(db.influencers) + [Row(profile, InfluencerProfile(pd, username, email, user, now))]
                                    else old(db.influencers))
              && db.buyers == (if kind == BuyerKind
                               then old(db.buyers) + [Row(profile, BuyerProfile(pd, username, user, now))]
                               else old(db.buyers))
    ensures UniqueEmails(old(db.users)) ==> UniqueEmails(db.users)
  {
    if !StrTruthy(req.role_type) {
      return Ok(Delegated);
    }
    if !StrTruthy(req.email) || !StrTruthy(req.username) || !StrTruthy(req.password) {
      return Err(BadRequest);
    }
    var kind := KindOf(req.role_type.value);
    if kind.None? {
      return Err(BadRequest);
    }
    var role := RoleFor(db.roles, kind.value);
    if role.None? {
      return Err(BadRequest);
    }
    var email := Lower(req.email.value);
    var existing := Holder(db.users, email);
    if existing.Some? {
      return Err(BadRequest);
    }
    ghost var users0 := db.users;
    var username := req.username.value;
    var user := db.CreateUser(User(username, email, role.value.id, true, false));
    if profileFails {
      KeepAppended(users0, user, User(username, email, role.value.id, true, false));
      db.DeleteUser(user);
      return Err(BadRequest);
    }
    UniqueEmailsAppend(users0, user, User(username, email, role.value.id, true, false));
    var profile := CreateProfile(db, kind.value, req.profile_data, username, req.email.value, user, now);
    r := Ok(Created(user, profile));
  }

  /** Registration compares lower-cased addresses: a stored
      `al@x` refuses `Al@X`. */
  lemma CaseVariantRefused(users: seq<Row<User>>, roles: seq<Row<Role>>, req: RegisterRequest, k: nat)
    requires k < |users| && users[k].val.email == "al@x"
    requires req.email == Some("Al@X")
    ensures !Admissible(users, roles, req)
  {
    assert Lower("X") == "x";
    assert Lower("@X") == "@x";
    assert Lower("l@X") == "l@x";
    assert Lower("Al@X") == "al@x";
  }
}
