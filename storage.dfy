/** The document store the handlers read and write (entityService), held in
    memory: one collection per content type, and the next id to hand out. */
module Storage {
  import opened Base
  import opened Table
  import opened Records

  class Store {
    var users: seq<Row<User>>
    var roles: seq<Row<Role>>
    var vendors: seq<Row<Vendor>>
    var influencers: seq<Row<Influencer>>
    var buyers: seq<Row<Buyer>>
    var products: seq<Row<Product>>
    var nextId: Id

    /** Every collection is in id order and below the next id. */
    ghost predicate Valid()
      reads this
    {
      && Ordered(users) && Below(users, nextId)
      && Ordered(roles) && Below(roles, nextId)
      && Ordered(vendors) && Below(vendors, nextId)
      && Ordered(influencers) && Below(influencers, nextId)
      && Ordered(buyers) && Below(buyers, nextId)
      && Ordered(products) && Below(products, nextId)
    }

    constructor ()
      ensures Valid()
      ensures users == [] && roles == [] && vendors == [] && influencers == []
      ensures buyers == [] && products == [] && nextId == 1
    {
      users, roles, vendors, influencers, buyers, products := [], [], [], [], [], [];
      nextId := 1;
    }

    /** Hands out a fresh id, larger than every stored one. */
    method NewId() returns (id: Id)
      requires Valid()
      modifies this`nextId
      ensures Valid()
      ensures id == old(nextId) && nextId == id + 1
    {
      id := nextId;
      nextId := nextId + 1;
    }

    /** create: stores `u` under a fresh id at the end of the collection. */
    method CreateUser(u: User) returns (id: Id)
      requires Valid()
      modifies this`users, this`nextId
      ensures Valid()
      ensures id == old(nextId) && users == old(users) + [Row(id, u)]
    {
      id := NewId();
      AppendOrdered(users, id, u, nextId);
      users := users + [Row(id, u)];
    }

    /** delete: removes the record stored under `id`, if any. */
    method DeleteUser(id: Id)
      requires Valid()
      modifies this`users
      ensures Valid()
      ensures users == Keep(old(users), {id})
    {
      KeepOrdered(users, {id}, nextId);
      users := Keep(users, {id});
    }

    /** create: stores `role` under a fresh id at the end of the collection. */
    method CreateRole(role: Role) returns (id: Id)
      requires Valid()
      modifies this`roles, this`nextId
      ensures Valid()
      ensures id == old(nextId) && roles == old(roles) + [Row(id, role)]
    {
      id := NewId();
      AppendOrdered(roles, id, role, nextId);
      roles := roles + [Row(id, role)];
    }

    /** create: stores `v` under a fresh id at the end of the collection. */
    method CreateVendor(v: Vendor) returns (id: Id)
      requires Valid()
      modifies this`vendors, this`nextId
      ensures Valid()
      ensures id == old(nextId) && vendors == old(vendors) + [Row(id, v)]
    {
      id := NewId();
      AppendOrdered(vendors, id, v, nextId);
      vendors := vendors + [Row(id, v)];
    }

    /** update: replaces the v stored under `id` by `change` of it; a
        missing id changes nothing and gives null. */
    method UpdateVendor(id: Id, change: Vendor -> Vendor) returns (r: Option<Vendor>)
      requires Valid()
      modifies this`vendors
      ensures Valid()
      ensures r == (var found := Find(old(vendors), id);
                    if found.Some? then Some(change(found.value)) else None)
      ensures vendors == if r.Some? then Put(old(vendors), id, r.value) else old(vendors)
    {
      var found := Find(vendors, id);
      if found.Some? {
        r := Some(change(found.value));
        PutOrdered(vendors, id, r.value, nextId);
        vendors := Put(vendors, id, r.value);
      } else {
        r := None;
      }
    }

    /** delete: removes the record stored under `id`, if any. */
    method DeleteVendor(id: Id)
      requires Valid()
      modifies this`vendors
      ensures Valid()
      ensures vendors == Keep(old(vendors), {id})
    {
      KeepOrdered(vendors, {id}, nextId);
      vendors := Keep(vendors, {id});
    }

    /** create: stores `i` under a fresh id at the end of the collection. */
    method CreateInfluencer(i: Influencer) returns (id: Id)
      requires Valid()
      modifies this`influencers, this`nextId
      ensures Valid()
      ensures id == old(nextId) && influencers == old(influencers) + [Row(id, i)]
    {
      id := NewId();
      AppendOrdered(influencers, id, i, nextId);
      influencers := influencers + [Row(id, i)];
    }

    /** update: replaces the i stored under `id` by `change` of it; a
        missing id changes nothing and gives null. */
    method UpdateInfluencer(id: Id, change: Influencer -> Influencer) returns (r: Option<Influencer>)
      requires Valid()
      modifies this`influencers
      ensures Valid()
      ensures r == (var found := Find(old(influencers), id);
                    if found.Some? then Some(change(found.value)) else None)
      ensures influencers == if r.Some? then Put(old(influencers), id, r.value) else old(influencers)
    {
      var found := Find(influencers, id);
      if found.Some? {
        r := Some(change(found.value));
        PutOrdered(influencers, id, r.value, nextId);
        influencers := Put(influencers, id, r.value);
      } else {
        r := None;
      }
    }

    /** delete: removes the record stored under `id`, if any. */
    method DeleteInfluencer(id: Id)
      requires Valid()
      modifies this`influencers
      ensures Valid()
      ensures influencers == Keep(old(influencers), {id})
    {
      KeepOrdered(influencers, {id}, nextId);
      influencers := Keep(influencers, {id});
    }

    /** create: stores `b` under a fresh id at the end of the collection. */
    method CreateBuyer(b: Buyer) returns (id: Id)
      requires Valid()
      modifies this`buyers, this`nextId
      ensures Valid()
      ensures id == old(nextId) && buyers == old(buyers) + [Row(id, b)]
    {
      id := NewId();
      AppendOrdered(buyers, id, b, nextId);
      buyers := buyers + [Row(id, b)];
    }

    /** update: replaces the b stored under `id` by `change` of it; a
        missing id changes nothing and gives null. */
    method UpdateBuyer(id: Id, change: Buyer -> Buyer) returns (r: Option<Buyer>)
      requires Valid()
      modifies this`buyers
      ensures Valid()
      ensures r == (var found := Find(old(buyers), id);
                    if found.Some? then Some(change(found.value)) else None)
      ensures buyers == if r.Some? then Put(old(buyers), id, r.value) else old(buyers)
    {
      var found := Find(buyers, id);
      if found.Some? {
        r := Some(change(found.value));
        PutOrdered(buyers, id, r.value, nextId);
        buyers := Put(buyers, id, r.value);
      } else {
        r := None;
      }
    }

    /** delete: removes the record stored under `id`, if any. */
    method DeleteBuyer(id: Id)
      requires Valid()
      modifies this`buyers
      ensures Valid()
      ensures buyers == Keep(old(buyers), {id})
    {
      KeepOrdered(buyers, {id}, nextId);
      buyers := Keep(buyers, {id});
    }

    /** create: stores `p` under a fresh id at the end of the collection. */
    method CreateProduct(p: Product) returns (id: Id)
      requires Valid()
      modifies this`products, this`nextId
      ensures Valid()
      ensures id == old(nextId) && products == old(products) + [Row(id, p)]
    {
      id := NewId();
      AppendOrdered(products, id, p, nextId);
      products := products + [Row(id, p)];
    }
  }
}
