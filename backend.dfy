/** The hosted document store, as the state the services read and write:
    the `cafes` collection, each café's `calificaciones` sub-collection and
    the `usuarios` collection. Each method is one document write. */
module Backend {
  import opened Wrappers
  import opened Documents

  class Store {
    var cafes: map<string, Cafe>
    var ratings: map<string, map<string, Rating>>   // café id -> rating id -> rating
    var users: map<string, User>

    constructor ()
      ensures cafes == map[] && ratings == map[] && users == map[]
    {
      cafes, ratings, users := map[], map[], map[];
    }

    /** Every stored aggregate's breakdown adds up to its count. */
    ghost predicate Valid()
      reads this
    {
      forall id :: id in cafes && cafes[id].rating.Some? ==> Consistent(cafes[id].rating.value)
    }

    /** The ratings stored under one café (empty when none were written). */
    function RatingsOf(cafeId: string): map<string, Rating>
      reads this
    {
      if cafeId in ratings then ratings[cafeId] else map[]
    }

    /** `setDoc` on `cafes/{id}`. */
    method PutCafe(id: string, c: Cafe)
      modifies this
      ensures cafes == old(cafes)[id := c]
      ensures ratings == old(ratings) && users == old(users)
    {
      cafes := cafes[id := c];
    }

    /** `set` on `cafes/{cafeId}/calificaciones/{id}`; the parent café need not exist. */
    method PutRating(cafeId: string, id: string, r: Rating)
      modifies this
      ensures ratings == old(ratings)[cafeId := old(RatingsOf(cafeId))[id := r]]
      ensures cafes == old(cafes) && users == old(users)
    {
      ratings := ratings[cafeId := RatingsOf(cafeId)[id := r]];
    }

    /** `setDoc` on `usuarios/{id}`: replaces the whole profile. */
    method PutUser(id: string, u: User)
      modifies this
      ensures users == old(users)[id := u]
      ensures cafes == old(cafes) && ratings == old(ratings)
    {
      users := users[id := u];
    }

    /** `updateDoc(usuarios/{id}, { lastLogin })` on an existing profile. */
    method SetLastLogin(id: string, at: Timestamp)
      requires id in users
      modifies this
      ensures users == old(users)[id := old(users)[id].(lastLogin := Some(at))]
      ensures cafes == old(cafes) && ratings == old(ratings)
    {
      users := users[id := users[id].(lastLogin := Some(at))];
    }
  }
}
