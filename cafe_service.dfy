/** `registerCafe`, `searchCafes` and `getPopularCafes`. Queries run against
    `docs`, the `cafes` collection as the backend lists it; the server's
    `where`/`orderBy`/`limit` are filter, stable sort and take over it. */
module CafeService {
  import opened Wrappers
  import opened Documents
  import opened Seqs
  import Backend
  import Uploads

  /** What the caller passes as `cafeData`. */
  datatype CafeData = CafeData(
    id: Option<string>,          // a caller-supplied `id` survives the spread
    name: string,
    description: string,
    address: string,
    tags: Option<seq<string>>,
    images: Option<seq<Url>>)    // overridden by the uploaded URLs

  /** `{ id: cafeId, ...cafeData, images, rating: {zeros}, createdAt, updatedAt }` */
  function NewCafeDoc(cafeId: string, data: CafeData, urls: seq<Url>, now: Timestamp): (c: Cafe)
    ensures c.images == urls && c.rating == Some(ZeroAggregate)
    ensures c.id == (if data.id.Some? then data.id.value else cafeId)
    ensures c.name == data.name && c.tags == data.tags
    ensures c.createdAt == now && c.updatedAt == now
  {
    Cafe(data.id.GetOr(cafeId), data.name, data.description, data.address, data.tags, urls,
         Some(ZeroAggregate), now, now)
  }

  /** A new café starts at average 0 over 0 ratings, every star bucket at 0,
      and its aggregate satisfies the breakdown invariant. */
  lemma NewCafeStartsUnrated(cafeId: string, data: CafeData, urls: seq<Url>, now: Timestamp)
    ensures var c := NewCafeDoc(cafeId, data, urls, now);
      && c.rating.Some? && Consistent(c.rating.value)
      && c.rating.value.averageTenths == 0 && c.rating.value.count == 0
      && c.rating.value.breakdown.Keys == {1, 2, 3, 4, 5}
      && forall star :: Bucket(c.rating.value.breakdown, star) == 0
  {
    ZeroAggregateConsistent();
  }

  /** `registerCafe(cafeData, images)`: uploads the images best-effort, then
      writes the document under the generated `cafeId`. `writeError` is the
      message of a failed `setDoc`, if any. */
  method RegisterCafe(db: Backend.Store, cafeId: string, data: CafeData, uploads: seq<Option<Url>>,
                      now: Timestamp, writeError: Option<string>)
    returns (res: Result<Cafe>)
    modifies db
    ensures db.ratings == old(db.ratings) && db.users == old(db.users)
    ensures writeError.Some? ==> res == Failure(writeError.value) && db.cafes == old(db.cafes)
    ensures writeError.None? ==>
      && res == Success(NewCafeDoc(cafeId, data, Uploads.Successes(uploads), now))
      && db.cafes == old(db.cafes)[cafeId := res.value]
    ensures old(db.Valid()) ==> db.Valid()
  {
    var imageUrls: seq<Url> := [];
    if |uploads| > 0 {
      imageUrls := Uploads.UploadImages(uploads);
    }
    var doc := NewCafeDoc(cafeId, data, imageUrls, now);
    if writeError.Some? {
      return Failure(writeError.value);
    }
    ZeroAggregateConsistent();
    db.PutCafe(cafeId, doc);
    res := Success(doc);
  }

  // ---------------------------------------------------------------- ordering

  /** String order as the backend compares names: code point by code point,
      a proper prefix first. */
  predicate StrLe(a: string, b: string) {
    a == [] || (b != [] && (if a[0] == b[0] then StrLe(a[1..], b[1..]) else a[0] < b[0]))
  }

  lemma {:induction false} StrLeTotal(a: string, b: string)
    ensures StrLe(a, b) || StrLe(b, a)
  {
    if a != [] && b != [] && a[0] == b[0] {
      StrLeTotal(a[1..], b[1..]);
    }
  }

  lemma {:induction false} StrLeTrans(a: string, b: string, c: string)
    requires StrLe(a, b) && StrLe(b, c)
    ensures StrLe(a, c)
  {
    if a != [] && a[0] == b[0] && b[0] == c[0] {
      StrLeTrans(a[1..], b[1..], c[1..]);
    }
  }

  /** The upper bound of the name range: `searchTerm + "\uf8ff"`. */
  const RangeEnd: char := '\U{F8FF}'

  /** `where("name", ">=", term), where("name", "<=", term + "\uf8ff")` */
  predicate InNameRange(name: string, term: string) {
    StrLe(term, name) && StrLe(name, term + [RangeEnd])
  }

  /** The name range holds exactly the names that start with `term` and
      continue with nothing, with a character below U+F8FF, or with U+F8FF
      alone. So it is a prefix search that misses names continuing with
      characters at or above U+F8FF. */
  lemma {:induction false} NameRangeIsPrefixSearch(name: string, term: string)
    ensures InNameRange(name, term) <==>
      && term <= name
      && var rest := name[|term|..];
         rest == [] || rest[0] < RangeEnd || rest == [RangeEnd]
  {
    if term == [] {
      assert name[|term|..] == name;
      if name != [] && name[0] == RangeEnd {
        assert StrLe(name[1..], []) <==> name[1..] == [];
        assert name == [RangeEnd] <==> name[1..] == [];
      }
    } else if name != [] && name[0] == term[0] {
      NameRangeIsPrefixSearch(name[1..], term[1..]);
      assert (term + [RangeEnd])[1..] == term[1..] + [RangeEnd];
      if |term| <= |name| {
        assert name[1..][|term[1..]|..] == name[|term|..];
      }
      assert term <= name <==> term[1..] <= name[1..];
    } else if name != [] {
      assert (term + [RangeEnd])[0] == term[0];
    }
  }

  /** Alphabetical by name (`orderBy("name")`). */
  predicate ByName(a: Cafe, b: Cafe) {
    StrLe(a.name, b.name)
  }

  function AverageOf(c: Cafe): int {
    CurrentRating(c).averageTenths
  }

  function CountOf(c: Cafe): nat {
    CurrentRating(c).count
  }

  /** `orderBy("rating.average", "desc")` */
  predicate ByAverageDesc(a: Cafe, b: Cafe) {
    AverageOf(a) >= AverageOf(b)
  }

  /** `orderBy("rating.average", "desc"), orderBy("rating.count", "desc")` */
  predicate ByPopularity(a: Cafe, b: Cafe) {
    AverageOf(a) > AverageOf(b) || (AverageOf(a) == AverageOf(b) && CountOf(a) >= CountOf(b))
  }

  /** Ordering on a field leaves out the documents that lack it. */
  predicate HasRating(c: Cafe) {
    c.rating.Some?
  }

  /** The query `searchCafes` sends for a non-empty term. */
  function NameQuery(docs: seq<Cafe>, term: string, limit: nat): seq<Cafe> {
    Take(SortBy(Filter(docs, (c: Cafe) => InNameRange(c.name, term)), ByName), limit)
  }

  /** The query `searchCafes` sends for an empty term. */
  function AverageQuery(docs: seq<Cafe>, limit: nat): seq<Cafe> {
    Take(SortBy(Filter(docs, HasRating), ByAverageDesc), limit)
  }

  /** The query `getPopularCafes` sends. */
  function PopularQuery(docs: seq<Cafe>, limit: nat): seq<Cafe> {
    Take(SortBy(Filter(docs, HasRating), ByPopularity), limit)
  }

  /** `tags.some(tag => cafe.tags?.includes(tag))`: a café without `tags` never matches. */
  predicate HasAnyTag(c: Cafe, tags: seq<string>) {
    c.tags.Some? && exists t :: t in tags && t in c.tags.value
  }

  /** The client-side tag filter of `searchCafes` (OR over the requested tags). */
  function TagFilter(cafes: seq<Cafe>, tags: seq<string>): seq<Cafe> {
    if |tags| > 0 then Filter(cafes, (c: Cafe) => HasAnyTag(c, tags)) else cafes
  }

  /** No tags: the list is returned as retrieved. Some tags: a café is kept
      exactly when it carries at least one of them, and the survivors keep
      their relative order. */
  lemma TagFilterKeepsMatches(cafes: seq<Cafe>, tags: seq<string>)
    ensures |tags| == 0 ==> TagFilter(cafes, tags) == cafes
    ensures |tags| > 0 ==> forall c :: c in TagFilter(cafes, tags) <==> c in cafes && HasAnyTag(c, tags)
    ensures IsSubsequence(TagFilter(cafes, tags), cafes)
  {
    if |tags| > 0 {
      FilterIsSubsequence(cafes, (c: Cafe) => HasAnyTag(c, tags));
    } else {
      SubsequenceOfItself(cafes);
    }
  }

  lemma {:induction false} SubsequenceOfItself(s: seq<Cafe>)
    ensures IsSubsequence(s, s)
  {
    if s != [] {
      SubsequenceOfItself(s[1..]);
    }
  }

  /** With a non-empty term: at most `limit` cafés, all from the collection
      and named with the term as prefix, in ascending name order; all matching
      cafés when fewer than `limit` came back, and otherwise the first
      `limit` by name: a matching café left out sorts after every one
      returned. */
  lemma NameQueryResult(docs: seq<Cafe>, term: string, limit: nat)
    ensures var r := NameQuery(docs, term, limit);
      && |r| <= limit
      && (forall c :: c in r ==> c in docs && InNameRange(c.name, term) && term <= c.name)
      && (forall i :: 0 <= i < |r| - 1 ==> StrLe(r[i].name, r[i + 1].name))
      && (|r| < limit ==> forall c :: c in docs && InNameRange(c.name, term) ==> c in r)
      && (forall c, i :: c in docs && InNameRange(c.name, term) && c !in r && 0 <= i < |r| ==>
            StrLe(r[i].name, c.name))
  {
    forall a: Cafe, b: Cafe ensures ByName(a, b) || ByName(b, a) {
      StrLeTotal(a.name, b.name);
    }
    forall a: Cafe, b: Cafe, c: Cafe | ByName(a, b) && ByName(b, c) ensures ByName(a, c) {
      StrLeTrans(a.name, b.name, c.name);
    }
    QueryResult(docs, (c: Cafe) => InNameRange(c.name, term), ByName, limit);
    var r := NameQuery(docs, term, limit);
    forall c | c in r ensures term <= c.name {
      NameRangeIsPrefixSearch(c.name, term);
    }
  }

  /** With an empty term: at most `limit` rated cafés from the collection, by
      average descending, and the highest rated of them: a rated café left
      out has an average no higher than any returned. */
  lemma AverageQueryResult(docs: seq<Cafe>, limit: nat)
    ensures var r := AverageQuery(docs, limit);
      && |r| <= limit
      && (forall c :: c in r ==> c in docs && c.rating.Some?)
      && (forall i :: 0 <= i < |r| - 1 ==> AverageOf(r[i]) >= AverageOf(r[i + 1]))
      && (|r| < limit ==> forall c :: c in docs && c.rating.Some? ==> c in r)
      && (forall c, i :: c in docs && c.rating.Some? && c !in r && 0 <= i < |r| ==>
            AverageOf(r[i]) >= AverageOf(c))
  {
    QueryResult(docs, HasRating, ByAverageDesc, limit);
  }

  /** `getPopularCafes`: at most `limit` rated cafés, by average descending
      and, among equal averages, by count descending, and the most popular
      of them: a rated café left out ranks below or level with every one
      returned. */
  lemma PopularQueryResult(docs: seq<Cafe>, limit: nat)
    ensures var r := PopularQuery(docs, limit);
      && |r| <= limit
      && (forall c :: c in r ==> c in docs && c.rating.Some?)
      && (forall i :: 0 <= i < |r| - 1 ==>
            AverageOf(r[i]) > AverageOf(r[i + 1])
            || (AverageOf(r[i]) == AverageOf(r[i + 1]) && CountOf(r[i]) >= CountOf(r[i + 1])))
      && (|r| < limit ==> forall c :: c in docs && c.rating.Some? ==> c in r)
      && (forall c, i :: c in docs && c.rating.Some? && c !in r && 0 <= i < |r| ==>
            AverageOf(r[i]) > AverageOf(c)
            || (AverageOf(r[i]) == AverageOf(c) && CountOf(r[i]) >= CountOf(c)))
  {
    QueryResult(docs, HasRating, ByPopularity, limit);
  }

  /** Copies a query snapshot into a fresh list (`querySnapshot.forEach(doc => cafes.push(doc.data()))`). */
  method CollectSnapshot(snapshot: seq<Cafe>) returns (cafes: seq<Cafe>)
    ensures cafes == snapshot
  {
    cafes := [];
    var i := 0;
    while i < |snapshot|
      invariant 0 <= i <= |snapshot|
      invariant cafes == snapshot[..i]
    {
      cafes := cafes + [snapshot[i]];
      i := i + 1;
    }
  }

  /** `searchCafes(searchTerm, tags, limitCount)`; `queryError` is the message
      of a failed `getDocs`, if any. */
  method SearchCafes(docs: seq<Cafe>, term: string, tags: seq<string>, limit: nat, queryError: Option<string>)
    returns (res: Result<seq<Cafe>>)
    ensures queryError.Some? ==> res == Failure(queryError.value)
    ensures queryError.None? ==> res.Success?
    ensures queryError.None? && term != [] ==> res.value == TagFilter(NameQuery(docs, term, limit), tags)
    ensures queryError.None? && term == [] ==> res.value == TagFilter(AverageQuery(docs, limit), tags)
  {
    var snapshot := if term != [] then NameQuery(docs, term, limit) else AverageQuery(docs, limit);
    if queryError.Some? {
      return Failure(queryError.value);
    }
    var cafes := CollectSnapshot(snapshot);
    if |tags| > 0 {
      cafes := Filter(cafes, (c: Cafe) => HasAnyTag(c, tags));
    }
    res := Success(cafes);
  }

  /** `getPopularCafes(limitCount)` */
  method GetPopularCafes(docs: seq<Cafe>, limit: nat, queryError: Option<string>)
    returns (res: Result<seq<Cafe>>)
    ensures queryError.Some? ==> res == Failure(queryError.value)
    ensures queryError.None? ==> res == Success(PopularQuery(docs, limit))
  {
    if queryError.Some? {
      return Failure(queryError.value);
    }
    var cafes := CollectSnapshot(PopularQuery(docs, limit));
    res := Success(cafes);
  }
}
