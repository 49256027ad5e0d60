/** One collection of the document store: its records in id order, which is
    also the order in which they were created and the order a findMany
    returns them in. */
module Table {
  import opened Base

  datatype Row<T> = Row(id: Id, val: T)

  /** Ids strictly increase along the collection, so each id names at most
      one record. */
  ghost predicate Ordered<T(!new)>(t: seq<Row<T>>) {
    forall i, j :: 0 <= i < j < |t| ==> t[i].id < t[j].id
  }

  /** Every id in the collection is below `next`, the next id to hand out. */
  ghost predicate Below<T(!new)>(t: seq<Row<T>>, next: int) {
    forall i :: 0 <= i < |t| ==> t[i].id < next
  }

  /** findOne(id): the record stored under `id`, if any. */
  function Find<T(!new)>(t: seq<Row<T>>, id: Id): (r: Option<T>)
    ensures r.None? <==> forall i :: 0 <= i < |t| ==> t[i].id != id
    ensures r.Some? ==> Row(id, r.value) in t
  {
    if t == [] then None
    else if t[0].id == id then Some(t[0].val)
    else
      var r := Find(t[1..], id);
      assert forall i :: 1 <= i < |t| ==> t[i] == t[1..][i - 1];
      r
  }

  /** In an ordered collection the record found under `id` is the one stored there. */
  lemma {:induction false} FindAt<T(!new)>(t: seq<Row<T>>, k: nat)
    requires Ordered(t) && k < |t|
    ensures Find(t, t[k].id) == Some(t[k].val)
  {
    if k > 0 {
      assert t[0].id < t[k].id;
      FindAt(t[1..], k - 1);
    }
  }

  /** The position of a record known to be in the collection. */
  function IndexOf<T(==,!new)>(t: seq<Row<T>>, x: Row<T>): (k: nat)
    requires x in t
    ensures k < |t| && t[k] == x
  {
    if t[0] == x then 0 else 1 + IndexOf(t[1..], x)
  }

  /** update(id, v): replaces the record stored under `id`; positions and
      ids stay as they were. */
  function Put<T(!new)>(t: seq<Row<T>>, id: Id, v: T): (r: seq<Row<T>>)
    ensures |r| == |t|
    ensures forall i :: 0 <= i < |t| ==> r[i].id == t[i].id
    ensures forall i :: 0 <= i < |t| ==> r[i].val == if t[i].id == id then v else t[i].val
  {
    if t == [] then []
    else [if t[0].id == id then Row(id, v) else t[0]] + Put(t[1..], id, v)
  }

  lemma PutOrdered<T(!new)>(t: seq<Row<T>>, id: Id, v: T, next: int)
    requires Ordered(t) && Below(t, next)
    ensures Ordered(Put(t, id, v)) && Below(Put(t, id, v), next)
  {
  }

  lemma PutFind<T(!new)>(t: seq<Row<T>>, id: Id, v: T, other: Id)
    requires Ordered(t)
    ensures Find(Put(t, id, v), other) ==
            if other == id && Find(t, id).Some? then Some(v) else Find(t, other)
  {
    var p := Put(t, id, v);
    if k :| 0 <= k < |t| && t[k].id == other {
      FindAt(t, k);
      FindAt(p, k);
    }
  }

  /** A second update of the same id overwrites the first. */
  lemma PutPut<T(!new)>(t: seq<Row<T>>, id: Id, v: T, w: T)
    ensures Put(Put(t, id, v), id, w) == Put(t, id, w)
  {
  }

  /** The collection without the records whose ids are in `drop`, the others
      kept in order: what a sequence of delete(id) calls leaves. */
  function Keep<T(!new)>(t: seq<Row<T>>, drop: set<Id>): (r: seq<Row<T>>)
    ensures |r| <= |t|
    ensures forall x :: x in r <==> x in t && x.id !in drop
  {
    if t == [] then []
    else if t[0].id in drop then Keep(t[1..], drop)
    else [t[0]] + Keep(t[1..], drop)
  }

  /** Deleting the ids of `a` and then those of `b` is deleting both. */
  lemma {:induction false} KeepKeep<T(!new)>(t: seq<Row<T>>, a: set<Id>, b: set<Id>)
    ensures Keep(Keep(t, a), b) == Keep(t, a + b)
  {
    if t != [] {
      KeepKeep(t[1..], a, b);
    }
  }

  lemma KeepNothing<T(!new)>(t: seq<Row<T>>)
    ensures Keep(t, {}) == t
  {
  }

  lemma {:induction false} KeepOrdered<T(!new)>(t: seq<Row<T>>, drop: set<Id>, next: int)
    requires Ordered(t) && Below(t, next)
    ensures Ordered(Keep(t, drop)) && Below(Keep(t, drop), next)
  {
    if t != [] {
      var tail := t[1..];
      assert Ordered(tail) && Below(tail, next);
      KeepOrdered(tail, drop, next);
      var k := Keep(tail, drop);
      forall j | 0 <= j < |k| ensures t[0].id < k[j].id {
        assert k[j] in tail;
      }
      if t[0].id !in drop {
        ConsOrdered(t[0], k, next);
      }
    }
  }

  lemma ConsOrdered<T(!new)>(x: Row<T>, k: seq<Row<T>>, next: int)
    requires Ordered(k) && Below(k, next) && x.id < next
    requires forall j :: 0 <= j < |k| ==> x.id < k[j].id
    ensures Ordered([x] + k) && Below([x] + k, next)
  {
    var s := [x] + k;
    forall i, j | 0 <= i < j < |s| ensures s[i].id < s[j].id {
      if i > 0 { assert s[i] == k[i - 1]; }
      assert s[j] == k[j - 1];
    }
  }

  /** Appending a record under a fresh, larger id keeps the order. */
  lemma AppendOrdered<T(!new)>(t: seq<Row<T>>, id: Id, v: T, next: int)
    requires Ordered(t) && Below(t, id) && id < next
    ensures Ordered(t + [Row(id, v)]) && Below(t + [Row(id, v)], next)
  {
  }

  /** Deleting the id just appended gives the collection back. */
  lemma KeepAppended<T(!new)>(t: seq<Row<T>>, id: Id, v: T)
    requires Below(t, id)
    ensures Keep(t + [Row(id, v)], {id}) == t
  {
    KeepAppend(t, [Row(id, v)], {id});
    KeepUntouched(t, {id});
  }

  lemma {:induction false} KeepAppend<T(!new)>(a: seq<Row<T>>, b: seq<Row<T>>, drop: set<Id>)
    ensures Keep(a + b, drop) == Keep(a, drop) + Keep(b, drop)
  {
    if a == [] {
      assert a + b == b;
    } else {
      var ab := a + b;
      assert ab[0] == a[0] && ab[1..] == a[1..] + b;
      KeepAppend(a[1..], b, drop);
      if a[0].id in drop {
        calc {
          Keep(ab, drop);
          Keep(ab[1..], drop);
          Keep(a[1..], drop) + Keep(b, drop);
          Keep(a, drop) + Keep(b, drop);
        }
      } else {
        calc {
          Keep(ab, drop);
          [a[0]] + Keep(ab[1..], drop);
          [a[0]] + (Keep(a[1..], drop) + Keep(b, drop));
          ([a[0]] + Keep(a[1..], drop)) + Keep(b, drop);
          Keep(a, drop) + Keep(b, drop);
        }
      }
    }
  }

  lemma {:induction false} KeepUntouched<T(!new)>(t: seq<Row<T>>, drop: set<Id>)
    requires forall i :: 0 <= i < |t| ==> t[i].id !in drop
    ensures Keep(t, drop) == t
  {
    if t != [] {
      KeepUntouched(t[1..], drop);
    }
  }

  /** The ids of the records that satisfy `p`, in collection order
      (findMany({filters}) followed by `.map(r => r.id)`). */
  function IdsWhere<T(!new)>(t: seq<Row<T>>, p: T -> bool): (r: seq<Id>)
    ensures forall x :: x in r <==> exists i :: 0 <= i < |t| && t[i].id == x && p(t[i].val)
  {
    if t == [] then []
    else
      var rest := IdsWhere(t[1..], p);
      assert forall i :: 1 <= i < |t| ==> t[i] == t[1..][i - 1];
      if p(t[0].val) then [t[0].id] + rest else rest
  }

  /** The ids a list holds, as a set. */
  function Members(ids: seq<Id>): set<Id> {
    set x | x in ids
  }

  /** Deleting the ids of the records that satisfy `p` leaves no such record. */
  lemma DeletingMatchesLeavesNone<T(!new)>(t: seq<Row<T>>, p: T -> bool)
    ensures forall x :: x in Keep(t, Members(IdsWhere(t, p))) ==> !p(x.val)
  {
  }

  /** Deleting only ids of records that satisfy `p` removes nothing else: in
      an id-ordered collection a record that fails `p` shares its id with no
      record that passes. */
  lemma DeletingMatchesKeepsOthers<T(!new)>(t: seq<Row<T>>, p: T -> bool, ids: seq<Id>)
    requires Ordered(t)
    requires forall x :: x in ids ==> x in IdsWhere(t, p)
    ensures forall x :: x in t && !p(x.val) ==> x in Keep(t, Members(ids))
  {
    forall x | x in t && !p(x.val)
      ensures x.id !in Members(ids)
    {
      var j :| 0 <= j < |t| && t[j] == x;
      assert forall i :: 0 <= i < |t| && t[i].id == x.id ==> i == j;
    }
  }

  /** The records that satisfy `p`, in collection order (findMany with filters). */
  function Where<T(!new)>(t: seq<Row<T>>, p: T -> bool): (r: seq<Row<T>>)
    ensures |r| <= |t|
    ensures forall x :: x in r <==> x in t && p(x.val)
  {
    if t == [] then []
    else if p(t[0].val) then [t[0]] + Where(t[1..], p)
    else Where(t[1..], p)
  }

  /** Filtering by a predicate never changes the collection's order:
      filtering a concatenation filters each part. */
  lemma {:induction false} WhereAppend<T(!new)>(a: seq<Row<T>>, b: seq<Row<T>>, p: T -> bool)
    ensures Where(a + b, p) == Where(a, p) + Where(b, p)
  {
    if a == [] {
      assert a + b == b;
    } else {
      var ab := a + b;
      assert ab[0] == a[0] && ab[1..] == a[1..] + b;
      WhereAppend(a[1..], b, p);
      if p(a[0].val) {
        calc {
          Where(ab, p);
          [a[0]] + Where(ab[1..], p);
          [a[0]] + (Where(a[1..], p) + Where(b, p));
          ([a[0]] + Where(a[1..], p)) + Where(b, p);
          Where(a, p) + Where(b, p);
        }
      } else {
        calc {
          Where(ab, p);
          Where(ab[1..], p);
          Where(a[1..], p) + Where(b, p);
          Where(a, p) + Where(b, p);
        }
      }
    }
  }

  /** The first record that satisfies `p` (findMany(...)[0]), if there is one. */
  function First<T(!new)>(t: seq<Row<T>>, p: T -> bool): (r: Option<Row<T>>)
    ensures r.None? <==> forall i :: 0 <= i < |t| ==> !p(t[i].val)
    ensures r.Some? ==> exists k :: 0 <= k < |t| && t[k] == r.value && p(t[k].val) &&
                                    forall j :: 0 <= j < k ==> !p(t[j].val)
  {
    if t == [] then None
    else if p(t[0].val) then Some(t[0])
    else
      var r := First(t[1..], p);
      assert forall i :: 1 <= i < |t| ==> t[i] == t[1..][i - 1];
      r
  }

  /** The first match is the head of the filtered collection. */
  lemma {:induction false} FirstIsHeadOfWhere<T(!new)>(t: seq<Row<T>>, p: T -> bool)
    ensures First(t, p) == if Where(t, p) == [] then None else Some(Where(t, p)[0])
  {
    if t != [] {
      FirstIsHeadOfWhere(t[1..], p);
    }
  }
}
