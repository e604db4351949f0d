/** `createRating`: stores a rating and, in the same transaction, folds its
    star value into the café's running aggregate. */
module RatingService {
  import opened Wrappers
  import opened Documents
  import Backend
  import Uploads

  /** `Math.round(num / den)` for a positive `den`: the nearest integer, ties
      going up. */
  function RoundHalfUp(num: int, den: int): (q: int)
    requires den > 0
    ensures den * (2 * q - 1) <= 2 * num < den * (2 * q + 1)
  {
    var q := (2 * num + den) / (2 * den);
    var rem := (2 * num + den) % (2 * den);
    assert 2 * num + den == 2 * den * q + rem;
    assert den * (2 * q - 1) == 2 * den * q - den;
    assert den * (2 * q + 1) == 2 * den * q + den;
    q
  }

  /** The aggregate after one more rating of `star` stars: the count grows by
      one, the star's bucket grows by one (a missing bucket counting as 0) and
      the new average is `(average * count + star) / newCount` rounded half up
      to one decimal, all in tenths. */
  function AddRating(agg: Aggregate, star: int): (r: Aggregate)
    ensures r.count == agg.count + 1
    ensures Bucket(r.breakdown, star) == Bucket(agg.breakdown, star) + 1
    ensures forall k :: k != star ==> Bucket(r.breakdown, k) == Bucket(agg.breakdown, k)
    ensures r.breakdown.Keys == agg.breakdown.Keys + {star}
    ensures var total := agg.averageTenths * agg.count + 10 * star;
            r.count * (2 * r.averageTenths - 1) <= 2 * total < r.count * (2 * r.averageTenths + 1)
  {
    var newCount := agg.count + 1;
    var newBreakdown := agg.breakdown[star := Bucket(agg.breakdown, star) + 1];
    Aggregate(RoundHalfUp(agg.averageTenths * agg.count + 10 * star, newCount), newCount, newBreakdown)
  }

  /** If the breakdown added up to the count before, it still does. */
  lemma AddRatingKeepsConsistent(agg: Aggregate, star: int)
    requires Consistent(agg)
    ensures Consistent(AddRating(agg, star))
  {
    TotalAfterIncrement(agg.breakdown, star);
  }

  lemma MulLe(n: int, a: int, b: int)
    requires n >= 0 && a <= b
    ensures n * a <= n * b
  {
    assert n * b - n * a == n * (b - a);
  }

  /** With stars in 1..5 and a stored average in 0..5, the average stays in 0..5. */
  lemma AverageStaysInRange(agg: Aggregate, star: int)
    requires 0 <= agg.averageTenths <= 50 && 1 <= star <= 5
    ensures 0 <= AddRating(agg, star).averageTenths <= 50
  {
    var r := AddRating(agg, star);
    var n, q := r.count, r.averageTenths;
    var total := agg.averageTenths * agg.count + 10 * star;
    MulLe(agg.count, 0, agg.averageTenths);
    MulLe(agg.count, agg.averageTenths, 50);
    assert agg.count * agg.averageTenths == agg.averageTenths * agg.count;
    assert 0 < total <= 50 * n;
    if q > 50 {
      MulLe(n, 101, 2 * q - 1);
      assert false;
    }
    if q < 0 {
      MulLe(n, 2 * q + 1, -1);
      assert false;
    }
  }

  /** The first rating of a café (count 0, which includes a café with no
      `rating` field) sets the average to exactly the star value. */
  lemma FirstRatingSetsAverage(agg: Aggregate, star: int)
    requires agg.count == 0
    ensures AddRating(agg, star).averageTenths == 10 * star
    ensures AddRating(agg, star).count == 1
  {
    var q := AddRating(agg, star).averageTenths;
    assert 2 * q - 1 <= 20 * star < 2 * q + 1;
  }

  /** A café at 4.5 over two ratings (one 5, one 4) that receives a 3 ends at
      4.0 over three ratings, with a new bucket for 3. */
  lemma WorkedExample()
    ensures AddRating(Aggregate(45, 2, map[5 := 1, 4 := 1]), 3)
         == Aggregate(40, 3, map[5 := 1, 4 := 1, 3 := 1])
  {
    var r := AddRating(Aggregate(45, 2, map[5 := 1, 4 := 1]), 3);
    assert r.breakdown == map[5 := 1, 4 := 1, 3 := 1];
  }

  /** What the caller passes as `ratingData`. */
  datatype RatingData = RatingData(
    id: Option<string>,          // a caller-supplied `id` survives the spread
    cafeId: string,
    userId: string,
    userName: string,
    userAvatar: string,
    stars: int,                  // the `rating` field
    comment: string,
    tags: seq<string>,
    images: Option<seq<Url>>)    // overridden by the uploaded URLs

  /** The stored rating document: `{ id, ...ratingData, images, helpful: 0, createdAt, updatedAt }`. */
  function NewRatingDoc(ratingId: string, data: RatingData, urls: seq<Url>, now: Timestamp): (r: Rating)
    ensures r.helpful == 0 && r.images == urls
    ensures r.id == (if data.id.Some? then data.id.value else ratingId)
    ensures r.cafeId == data.cafeId && r.stars == data.stars && r.comment == data.comment && r.tags == data.tags
    ensures r.userId == data.userId && r.userName == data.userName && r.userAvatar == data.userAvatar
    ensures r.createdAt == now && r.updatedAt == now
  {
    Rating(data.id.GetOr(ratingId), data.cafeId, data.userId, data.userName, data.userAvatar,
           data.stars, data.comment, data.tags, urls, 0, now, now)
  }

  /** The café after the transaction's `update`: the three `rating.*` fields
      and `updatedAt` change, nothing else. */
  function RatedCafe(c: Cafe, star: int, now: Timestamp): (d: Cafe)
    ensures d.rating == Some(AddRating(CurrentRating(c), star)) && d.updatedAt == now
    ensures d.(rating := c.rating, updatedAt := c.updatedAt) == c
  {
    c.(rating := Some(AddRating(CurrentRating(c), star)), updatedAt := now)
  }

  /** `createRating(ratingData, images)`. `ratingId` is the generated document
      id, `uploads` the blob store's answer for each image, `now` the clock and
      `txError` the message of an exception thrown by the transaction, if any. */
  method CreateRating(db: Backend.Store, data: RatingData, ratingId: string,
                      uploads: seq<Option<Url>>, now: Timestamp, txError: Option<string>)
    returns (res: Result<Rating>)
    modifies db
    ensures db.users == old(db.users)
    ensures txError.Some? ==>
      res == Failure(txError.value) && db.cafes == old(db.cafes) && db.ratings == old(db.ratings)
    ensures txError.None? ==>
      && res == Success(NewRatingDoc(ratingId, data, Uploads.Successes(uploads), now))
      && db.ratings == old(db.ratings)[data.cafeId := old(db.RatingsOf(data.cafeId))[ratingId := res.value]]
      && db.cafes == if data.cafeId in old(db.cafes)
                     then old(db.cafes)[data.cafeId := RatedCafe(old(db.cafes)[data.cafeId], data.stars, now)]
                     else old(db.cafes)
    ensures old(db.Valid()) ==> db.Valid()
  {
    var imageUrls: seq<Url> := [];
    if |uploads| > 0 {
      imageUrls := Uploads.UploadImages(uploads);
    }
    var doc := NewRatingDoc(ratingId, data, imageUrls, now);
    if txError.Some? {
      return Failure(txError.value);
    }
    ghost var wasValid := db.Valid();
    db.PutRating(data.cafeId, ratingId, doc);
    if data.cafeId in db.cafes {
      var cafe := db.cafes[data.cafeId];
      if wasValid && cafe.rating.Some? {
        AddRatingKeepsConsistent(cafe.rating.value, data.stars);
      }
      if cafe.rating.None? {
        ZeroAggregateConsistent();
        AddRatingKeepsConsistent(ZeroAggregate, data.stars);
      }
      db.PutCafe(data.cafeId, RatedCafe(cafe, data.stars, now));
    }
    res := Success(doc);
  }
}
