/** The admin order list: the fetched orders are joined with the profiles of
    their customers. The distinct customer ids select the profiles, a map
    keyed by customer id (the last profile of an id wins) resolves them, and
    every order comes back, in order, carrying its customer's profile or
    none. */
module Orders {
  import opened Common

  datatype OrderItem = OrderItem(
    id: string,
    orderId: string,
    productId: Option<string>,
    productName: string,
    quantity: int,
    price: int)

  /** A profile row as selected: the customer id, name and email. */
  datatype Profile = Profile(userId: string, name: string, email: string)

  datatype Order = Order(
    id: string,
    userId: string,
    status: string,
    total: int,
    paymentMethod: Option<string>,
    transactionId: Option<string>,
    createdAt: string,
    updatedAt: string,
    items: seq<OrderItem>,
    profiles: Option<Profile>)

  predicate NoDuplicates<T(==)>(xs: seq<T>) {
    forall i, j :: 0 <= i < j < |xs| ==> xs[i] != xs[j]
  }

  /** The index of the first occurrence of `x` in `xs`. */
  function FirstIndex<T(==)>(xs: seq<T>, x: T): (k: nat)
    requires x in xs
    ensures k < |xs| && xs[k] == x && x !in xs[..k]
  {
    if xs[0] == x then 0 else 1 + FirstIndex(xs[1..], x)
  }

  /** `[...new Set(xs)]`: each element once, in order of first occurrence. */
  function Distinct<T(==,!new)>(xs: seq<T>): (r: seq<T>)
    ensures NoDuplicates(r)
    ensures forall x :: x in r <==> x in xs
    ensures |r| <= |xs|
  {
    if xs == [] then []
    else
      var init := Distinct(xs[..|xs| - 1]);
      var last := xs[|xs| - 1];
      assert xs == xs[..|xs| - 1] + [last];
      if last in init then init else init + [last]
  }

  /** An element's first occurrence does not move when more elements follow. */
  lemma FirstIndexPrefix<T>(xs: seq<T>, ys: seq<T>, x: T)
    requires x in xs
    ensures FirstIndex(xs + ys, x) == FirstIndex(xs, x)
  {
    var k := FirstIndex(xs, x);
    var k' := FirstIndex(xs + ys, x);
    assert (xs + ys)[k] == x;
  }

  /** The elements of `r` come in the order of their first occurrences in `xs`. */
  predicate InFirstOccurrenceOrder<T(==)>(r: seq<T>, xs: seq<T>) {
    forall i, j :: 0 <= i < j < |r| && r[i] in xs && r[j] in xs ==> FirstIndex(xs, r[i]) < FirstIndex(xs, r[j])
  }

  /** The distinct elements appear in the order of their first occurrences. */
  lemma {:induction false} DistinctFirstOccurrenceOrder<T(!new)>(xs: seq<T>)
    ensures InFirstOccurrenceOrder(Distinct(xs), xs)
  {
    if xs != [] {
      var init := xs[..|xs| - 1];
      var last := xs[|xs| - 1];
      var d := Distinct(init);
      var r := Distinct(xs);
      assert xs == init + [last];
      DistinctFirstOccurrenceOrder(init);
      forall y | y in d
        ensures FirstIndex(xs, y) == FirstIndex(init, y) < |init|
      {
        FirstIndexPrefix(init, [last], y);
      }
      if last !in d {
        assert r == d + [last];
        assert FirstIndex(xs, last) == |init|;
        forall i, j | 0 <= i < j < |r|
          ensures FirstIndex(xs, r[i]) < FirstIndex(xs, r[j])
        {
          assert r[i] == d[i] && d[i] in d;
          if j < |d| {
            assert r[j] == d[j] && d[j] in d;
            assert d[i] in init && d[j] in init;
          } else {
            assert r[j] == last;
            assert FirstIndex(xs, d[i]) < |init|;
          }
        }
      } else {
        assert r == d;
        forall i, j | 0 <= i < j < |r|
          ensures FirstIndex(xs, r[i]) < FirstIndex(xs, r[j])
        {
          assert r[i] == d[i] && d[i] in d && d[i] in init;
          assert r[j] == d[j] && d[j] in d && d[j] in init;
        }
      }
    }
  }

  /** `userIds`: the distinct customer ids of the orders. */
  function UserIds(orders: seq<Order>): (ids: seq<string>)
    ensures NoDuplicates(ids)
    ensures forall u :: u in ids <==> exists i :: 0 <= i < |orders| && orders[i].userId == u
  {
    var all := seq(|orders|, i requires 0 <= i < |orders| => orders[i].userId);
    var ids := Distinct(all);
    assert forall u :: u in all <==> exists i :: 0 <= i < |orders| && orders[i].userId == u by {
      forall u
        ensures u in all <==> exists i :: 0 <= i < |orders| && orders[i].userId == u
      {
        if u in all {
          var i :| 0 <= i < |all| && all[i] == u;
          assert orders[i].userId == u;
        }
        if exists i :: 0 <= i < |orders| && orders[i].userId == u {
          var i :| 0 <= i < |orders| && orders[i].userId == u;
          assert all[i] == u;
        }
      }
    }
    ids
  }

  /** `p` is the last profile listed for customer `u`. */
  predicate IsLastProfileOf(profiles: seq<Profile>, u: string, p: Profile) {
    exists k :: 0 <= k < |profiles| && profiles[k] == p && forall j :: k < j < |profiles| ==> profiles[j].userId != u
  }

  /** `new Map(profiles.map(p => [p.user_id, p]))`: entries inserted in list
      order, so a later profile of the same customer replaces an earlier one. */
  function ProfileMap(profiles: seq<Profile>): (m: map<string, Profile>)
    ensures forall u :: u in m <==> exists i :: 0 <= i < |profiles| && profiles[i].userId == u
    ensures forall u :: u in m ==> m[u].userId == u
  {
    if profiles == [] then map[]
    else
      var last := profiles[|profiles| - 1];
      assert forall i :: 0 <= i < |profiles| - 1 ==> profiles[..|profiles| - 1][i] == profiles[i];
      ProfileMap(profiles[..|profiles| - 1])[last.userId := last]
  }

  /** Every entry of the map is the last profile listed for its customer. */
  lemma {:induction false} ProfileMapIsLast(profiles: seq<Profile>, u: string)
    requires u in ProfileMap(profiles)
    ensures IsLastProfileOf(profiles, u, ProfileMap(profiles)[u])
  {
    var last := profiles[|profiles| - 1];
    var init := profiles[..|profiles| - 1];
    assert profiles == init + [last];
    ProfileMapSnoc(init, last, u);
    if u == last.userId {
      assert profiles[|profiles| - 1] == ProfileMap(profiles)[u];
    } else {
      ProfileMapIsLast(init, u);
      var k :| 0 <= k < |init| && init[k] == ProfileMap(init)[u] && forall j :: k < j < |init| ==> init[j].userId != u;
      assert profiles[k] == ProfileMap(profiles)[u];
      assert forall j :: k < j < |profiles| ==> profiles[j].userId != u;
    }
  }

  /** The map holds, for each customer, the last profile listed for them. */
  lemma {:induction false} ProfileMapLastWins(profiles: seq<Profile>, k: nat)
    requires k < |profiles|
    requires forall j :: k < j < |profiles| ==> profiles[j].userId != profiles[k].userId
    ensures ProfileMap(profiles)[profiles[k].userId] == profiles[k]
  {
    var init := profiles[..|profiles| - 1];
    if k < |profiles| - 1 {
      assert init[k] == profiles[k];
      ProfileMapLastWins(init, k);
    }
  }

  /** `profileMap.get(user_id) || null`. */
  function Lookup(m: map<string, Profile>, userId: string): (p: Option<Profile>)
    ensures p.None? <==> userId !in m
    ensures p.Some? ==> p.value == m[userId]
  {
    if userId in m then Some(m[userId]) else None
  }

  /** The result of the order query: each fetched order, in order, with all
      its fields kept and `profiles` set to its customer's profile or none;
      no fetched profile list (`profiles?.… || []`) leaves every order without one. */
  function Join(orders: seq<Order>, profiles: Option<seq<Profile>>): (r: seq<Order>)
    ensures |r| == |orders|
    ensures forall i :: 0 <= i < |r| ==> r[i] == orders[i].(profiles := r[i].profiles)
    ensures forall i :: 0 <= i < |r| && r[i].profiles.Some? ==>
      r[i].profiles.value.userId == orders[i].userId &&
      IsLastProfileOf(profiles.GetOr([]), orders[i].userId, r[i].profiles.value)
    ensures forall i :: 0 <= i < |r| ==>
      (r[i].profiles.None? <==> forall j :: 0 <= j < |profiles.GetOr([])| ==> profiles.GetOr([])[j].userId != orders[i].userId)
    ensures profiles.None? ==> forall i :: 0 <= i < |r| ==> r[i].profiles.None?
  {
    var m := ProfileMap(profiles.GetOr([]));
    assert forall u :: u in m ==> IsLastProfileOf(profiles.GetOr([]), u, m[u]) by {
      forall u | u in m
        ensures IsLastProfileOf(profiles.GetOr([]), u, m[u])
      {
        ProfileMapIsLast(profiles.GetOr([]), u);
      }
    }
    seq(|orders|, i requires 0 <= i < |orders| => orders[i].(profiles := Lookup(m, orders[i].userId)))
  }

  function AmongIds(ids: seq<string>): Profile -> bool {
    (p: Profile) => p.userId in ids
  }

  /** Adding one profile at the end changes the map only at its customer. */
  lemma ProfileMapSnoc(init: seq<Profile>, last: Profile, u: string)
    ensures var m, m' := ProfileMap(init), ProfileMap(init + [last]);
      (u in m' <==> u == last.userId || u in m) &&
      (u in m' ==> m'[u] == if u == last.userId then last else m[u])
  {
    assert (init + [last])[..|init|] == init;
  }

  /** Dropping profiles of other customers leaves the map unchanged on the given ids. */
  lemma {:induction false} ProfileMapRestrict(profiles: seq<Profile>, ids: seq<string>, u: string)
    requires u in ids
    ensures var m, m' := ProfileMap(profiles), ProfileMap(FilterSeq(AmongIds(ids), profiles));
      (u in m <==> u in m') && (u in m ==> m[u] == m'[u])
    decreases |profiles|
  {
    if profiles != [] {
      var init := profiles[..|profiles| - 1];
      var last := profiles[|profiles| - 1];
      var keep := AmongIds(ids);
      assert profiles == init + [last];
      FilterAppend(keep, init, [last]);
      ProfileMapRestrict(init, ids, u);
      var fi := FilterSeq(keep, init);
      ProfileMapSnoc(init, last, u);
      if keep(last) {
        assert FilterSeq(keep, [last]) == [last];
        ProfileMapSnoc(fi, last, u);
      } else {
        assert FilterSeq(keep, [last]) == [];
        assert fi + [] == fi;
      }
    }
  }

  /** Fetching only the profiles of the orders' customers, as the query does,
      gives the same result as joining with every profile. */
  lemma JoinNeedsOnlyCustomerProfiles(orders: seq<Order>, profiles: seq<Profile>)
    ensures Join(orders, Some(FilterSeq(AmongIds(UserIds(orders)), profiles))) == Join(orders, Some(profiles))
  {
    var ids := UserIds(orders);
    var r, r' := Join(orders, Some(FilterSeq(AmongIds(ids), profiles))), Join(orders, Some(profiles));
    forall i | 0 <= i < |orders|
      ensures r[i] == r'[i]
    {
      assert orders[i].userId in ids;
      ProfileMapRestrict(profiles, ids, orders[i].userId);
    }
  }
}
