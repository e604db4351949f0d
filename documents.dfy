/** The documents the app keeps in its document store: cafés with their rating
    aggregate, ratings, and user profiles. Timestamps and blob URLs are opaque
    values supplied from outside. */
module Documents {
  import opened Wrappers

  type Url = string
  type Timestamp = int

  /** A café's `rating` field. The average is held in integer tenths of a star
      (4.5 stars is 45); `breakdown` maps a star value to the number of ratings
      with that value. */
  datatype Aggregate = Aggregate(averageTenths: int, count: nat, breakdown: map<int, int>)

  datatype Cafe = Cafe(
    id: string,
    name: string,
    description: string,
    address: string,
    tags: Option<seq<string>>,     // the `tags` field may be missing
    images: seq<Url>,
    rating: Option<Aggregate>,     // the `rating` field may be missing
    createdAt: Timestamp,
    updatedAt: Timestamp)

  /** A stored rating (collection `cafes/{cafeId}/calificaciones`). */
  datatype Rating = Rating(
    id: string,
    cafeId: string,
    userId: string,
    userName: string,
    userAvatar: string,
    stars: int,
    comment: string,
    tags: seq<string>,
    images: seq<Url>,
    helpful: int,
    createdAt: Timestamp,
    updatedAt: Timestamp)

  datatype Stats = Stats(reviews: nat, followers: nat, following: nat)

  /** A user profile (collection `usuarios`). `provider` is present only on
      profiles created by a social sign-in, `lastLogin` only after a later one. */
  datatype User = User(
    id: string,
    email: string,
    name: string,
    username: string,
    accountType: string,
    bio: string,
    avatar: string,
    provider: Option<string>,
    stats: Stats,
    createdAt: Timestamp,
    lastLogin: Option<Timestamp>)

  const ZeroStats := Stats(0, 0, 0)

  /** `{ 5: 0, 4: 0, 3: 0, 2: 0, 1: 0 }` */
  const ZeroBreakdown: map<int, int> := map[5 := 0, 4 := 0, 3 := 0, 2 := 0, 1 := 0]

  /** The aggregate of a café nobody has rated yet. */
  const ZeroAggregate := Aggregate(0, 0, ZeroBreakdown)

  /** `cafeData.rating || { average: 0, count: 0, breakdown: {...zeros} }` */
  function CurrentRating(c: Cafe): (a: Aggregate)
    ensures c.rating.None? ==> a == ZeroAggregate
    ensures c.rating.Some? ==> a == c.rating.value
  {
    c.rating.GetOr(ZeroAggregate)
  }

  /** `breakdown[star] || 0`: a missing key counts as zero. */
  function Bucket(b: map<int, int>, star: int): int {
    if star in b then b[star] else 0
  }

  /** A non-empty key set has a member. */
  lemma HasMember(s: set<int>)
    requires |s| != 0
    ensures exists x :: x in s
  {
    if forall x :: x !in s {
      assert false;
    }
  }

  lemma {:induction false} MinExists(s: set<int>)
    requires |s| != 0
    ensures exists m :: m in s && forall j :: j in s ==> m <= j
    decreases s
  {
    HasMember(s);
    var x :| x in s;
    if s != {x} {
      assert |s - {x}| != 0;
      MinExists(s - {x});
      var y :| y in s - {x} && forall j :: j in s - {x} ==> y <= j;
      var m := if y <= x then y else x;
      forall j | j in s ensures m <= j {
        if j != x {
          assert j in s - {x};
        }
      }
    } else {
      assert x in s && forall j :: j in s ==> x <= j;
    }
  }

  /** The least key of a non-empty key set. */
  ghost function MinKey(s: set<int>): (m: int)
    requires |s| != 0
    ensures m in s && forall j :: j in s ==> m <= j
  {
    MinExists(s);
    var m :| m in s && forall j :: j in s ==> m <= j; m
  }

  /** The sum of the breakdown values stored under `keys`, taken in key order. */
  ghost function TotalOver(b: map<int, int>, keys: set<int>): int
    requires keys <= b.Keys
    decreases keys
  {
    if |keys| == 0 then 0 else var k := MinKey(keys); b[k] + TotalOver(b, keys - {k})
  }

  /** `sum(breakdown.values())` */
  ghost function Total(b: map<int, int>): int {
    TotalOver(b, b.Keys)
  }

  /** The aggregate invariant the rating flow maintains: the breakdown counts
      add up to `count`. */
  ghost predicate Consistent(a: Aggregate) {
    Total(a.breakdown) == a.count
  }

  /** Any key can be taken out of the sum first. */
  lemma {:induction false} TotalOverRemove(b: map<int, int>, keys: set<int>, k: int)
    requires keys <= b.Keys && k in keys
    ensures TotalOver(b, keys) == b[k] + TotalOver(b, keys - {k})
    decreases keys
  {
    var j := MinKey(keys);
    if j != k {
      TotalOverRemove(b, keys - {j}, k);
      TotalOverRemove(b, keys - {k}, j);
      assert keys - {j} - {k} == keys - {k} - {j};
    }
  }

  /** Two breakdowns that agree on `keys` have the same sum over them. */
  lemma {:induction false} TotalOverAgree(b: map<int, int>, c: map<int, int>, keys: set<int>)
    requires keys <= b.Keys && keys <= c.Keys
    requires forall k :: k in keys ==> b[k] == c[k]
    ensures TotalOver(b, keys) == TotalOver(c, keys)
    decreases keys
  {
    if |keys| != 0 {
      var j := MinKey(keys);
      TotalOverRemove(c, keys, j);
      TotalOverAgree(b, c, keys - {j});
    }
  }

  /** A breakdown of zeros sums to zero. */
  lemma {:induction false} TotalOverZeros(b: map<int, int>, keys: set<int>)
    requires keys <= b.Keys
    requires forall k :: k in keys ==> b[k] == 0
    ensures TotalOver(b, keys) == 0
    decreases keys
  {
    if |keys| != 0 {
      var j := MinKey(keys);
      TotalOverZeros(b, keys - {j});
    }
  }

  /** Raising one bucket by one (creating it at 1 when missing) raises the sum by one. */
  lemma {:induction false} TotalAfterIncrement(b: map<int, int>, star: int)
    ensures Total(b[star := Bucket(b, star) + 1]) == Total(b) + 1
  {
    var b' := b[star := Bucket(b, star) + 1];
    TotalOverRemove(b', b'.Keys, star);
    TotalOverAgree(b, b', b.Keys - {star});
    assert b'.Keys - {star} == b.Keys - {star};
    if star in b {
      TotalOverRemove(b, b.Keys, star);
    } else {
      assert b.Keys - {star} == b.Keys;
    }
  }

  /** The aggregate a café starts with satisfies the invariant. */
  lemma ZeroAggregateConsistent()
    ensures Consistent(ZeroAggregate)
    ensures forall star :: Bucket(ZeroAggregate.breakdown, star) == 0
  {
    TotalOverZeros(ZeroBreakdown, ZeroBreakdown.Keys);
  }
}
