/** The rating form: picking a café from suggestions, choosing stars, writing a
    comment, toggling tags, and the guard chain that decides whether a rating
    is sent through `createRating`. Alerts and navigation are the outcomes
    returned by the methods. */
module UploadScreen {
  import opened Wrappers
  import opened Documents
  import opened Text
  import opened Seqs
  import Backend
  import CafeService
  import RatingService

  /** `filteredCafes.slice(0, 5)` */
  const SuggestionLimit: nat := 5
  /** `getPopularCafes(20)` on mount. */
  const LoadLimit: nat := 20
  const DefaultUserName := "Usuario"
  /** The alert of the handler's `catch`, reached when no user is signed in. */
  const SubmitCrashed := "Ocurrió un error al enviar la calificación"

  /** The alert `handleSubmitRating` ends with. */
  datatype Submission =
    | NoCafeChosen          // "Por favor selecciona una cafetería"
    | NoRating              // "Por favor selecciona una calificación"
    | NoComment             // "Por favor escribe un comentario"
    | CafeNotFound          // "Cafetería no encontrada"
    | Rejected(message: string)
    | Sent(rating: Rating)  // "Tu calificación ha sido enviada"

  /** The three guards, in order; `None` when all pass. */
  function Precheck(cafeText: string, rating: int, comment: string): (r: Option<Submission>)
    ensures r.None? <==> cafeText != [] && rating != 0 && !IsBlank(comment)
    ensures cafeText == [] ==> r == Some(NoCafeChosen)
    ensures cafeText != [] && rating == 0 ==> r == Some(NoRating)
    ensures cafeText != [] && rating != 0 && IsBlank(comment) ==> r == Some(NoComment)
  {
    TrimEmptyIffBlank(comment);
    if cafeText == [] then Some(NoCafeChosen)
    else if rating == 0 then Some(NoRating)
    else if Trim(comment) == [] then Some(NoComment)
    else None
  }

  /** The index of the first café called exactly `name`, or `|cafes|`. */
  function FirstNamed(cafes: seq<Cafe>, name: string): (i: nat)
    ensures i <= |cafes|
    ensures i < |cafes| ==> cafes[i].name == name
    ensures forall j :: 0 <= j < i ==> cafes[j].name != name
  {
    if cafes == [] || cafes[0].name == name then 0 else 1 + FirstNamed(cafes[1..], name)
  }

  /** `cafes.find((cafe) => cafe.name === name)` */
  function FindByName(cafes: seq<Cafe>, name: string): (r: Option<Cafe>)
    ensures r.None? <==> forall c :: c in cafes ==> c.name != name
    ensures r.Some? ==> r.value in cafes && r.value.name == name
    ensures r.Some? ==>
      exists i :: 0 <= i < |cafes| && cafes[i] == r.value && forall j :: 0 <= j < i ==> cafes[j].name != name
  {
    var i := FirstNamed(cafes, name);
    if i < |cafes| then Some(cafes[i]) else None
  }

  /** The `ratingData` built for a signed-in user and the resolved café. */
  function Payload(user: User, cafe: Cafe, rating: int, comment: string, tags: seq<string>): (d: RatingService.RatingData)
    ensures d.cafeId == cafe.id && d.userId == user.id && d.stars == rating && d.tags == tags
    ensures d.comment == Trim(comment)
    ensures d.userName == (if user.name == [] then DefaultUserName else user.name)
    ensures d.userAvatar == user.avatar
    ensures d.id.None? && d.images.None?
  {
    RatingService.RatingData(None, cafe.id, user.id, if user.name == [] then DefaultUserName else user.name,
                             user.avatar, rating, Trim(comment), tags, None)
  }

  /** `cafes.filter((cafe) => cafe.name.toLowerCase().includes(text.toLowerCase()))` */
  function Matching(cafes: seq<Cafe>, text: string): seq<Cafe> {
    Filter(cafes, (c: Cafe) => ContainsIgnoringCase(c.name, text))
  }

  /** The suggestions are the first five matches in load order: every one is
      a loaded café whose name contains the typed text ignoring case, they
      keep the order of the loaded list, they are the head of the full match
      list, and every match appears when fewer than five do. Empty text
      matches every café. */
  lemma SuggestionsMatch(cafes: seq<Cafe>, text: string)
    ensures var s := Take(Matching(cafes, text), SuggestionLimit);
      && |s| <= SuggestionLimit
      && (forall c :: c in s ==> c in cafes && ContainsIgnoringCase(c.name, text))
      && s == Matching(cafes, text)[..|s|]
      && IsSubsequence(s, cafes)
      && (|s| < SuggestionLimit ==> forall c :: c in cafes && ContainsIgnoringCase(c.name, text) ==> c in s)
    ensures text == [] ==> Matching(cafes, text) == cafes
  {
    var m := Matching(cafes, text);
    var s := Take(m, SuggestionLimit);
    FilterIsSubsequence(cafes, (c: Cafe) => ContainsIgnoringCase(c.name, text));
    PrefixIsSubsequence(s, m);
    SubsequenceTrans(s, m, cafes);
    forall c | c in s ensures c in Matching(cafes, text) {
      var i :| 0 <= i < |s| && s[i] == c;
      assert Matching(cafes, text)[i] == c;
    }
    if text == [] {
      assert ToLower(text) == [];
      forall i | 0 <= i < |cafes| ensures ContainsIgnoringCase(cafes[i].name, text) {
        EverythingContainsEmpty(ToLower(cafes[i].name));
      }
      FilterKeepsAll(cafes, (c: Cafe) => ContainsIgnoringCase(c.name, text));
    }
  }

  /** The form's state variables, as one value. */
  datatype FormState = FormState(
    selectedCafe: string,
    rating: int,
    comment: string,
    selectedTags: seq<string>,
    loading: bool,
    cafes: seq<Cafe>,
    showCafeList: bool)

  class UploadForm {
    var selectedCafe: string
    var rating: int
    var comment: string
    var selectedTags: seq<string>
    var loading: bool
    var cafes: seq<Cafe>
    var showCafeList: bool

    /** Only the star buttons set `rating`, so it is 0 or a star value. */
    ghost predicate Valid()
      reads this
    {
      0 <= rating <= 5
    }

    function State(): FormState
      reads this
    {
      FormState(selectedCafe, rating, comment, selectedTags, loading, cafes, showCafeList)
    }

    /** The suggestion list under the café field. */
    function Suggestions(): (s: seq<Cafe>)
      reads this
      ensures |s| <= SuggestionLimit
      ensures forall c :: c in s ==> c in cafes && ContainsIgnoringCase(c.name, selectedCafe)
      ensures IsSubsequence(s, cafes)
      ensures showCafeList ==> s <= Matching(cafes, selectedCafe)
      ensures showCafeList && |s| < SuggestionLimit ==>
        forall c :: c in cafes && ContainsIgnoringCase(c.name, selectedCafe) ==> c in s
      ensures !showCafeList ==> s == []
    {
      SuggestionsMatch(cafes, selectedCafe);
      if showCafeList then Take(Matching(cafes, selectedCafe), SuggestionLimit) else []
    }

    constructor ()
      ensures Valid()
      ensures State() == FormState([], 0, [], [], false, [], false)
    {
      selectedCafe, rating, comment, selectedTags := [], 0, [], [];
      loading, cafes, showCafeList := false, [], false;
    }

    /** The mount effect: `loadCafes()`; a failed query leaves the list as it was. */
    method LoadCafes(docs: seq<Cafe>, queryError: Option<string>)
      modifies this
      ensures State() == old(State()).(cafes := if queryError.None? then CafeService.PopularQuery(docs, LoadLimit) else old(cafes))
      ensures old(Valid()) ==> Valid()
    {
      var result := CafeService.GetPopularCafes(docs, LoadLimit, queryError);
      if result.Success? {
        cafes := result.value;
      }
    }

    /** `onChangeText` of the café field. */
    method TypeCafe(text: string)
      modifies this
      ensures State() == old(State()).(selectedCafe := text, showCafeList := text != [])
      ensures old(Valid()) ==> Valid()
    {
      selectedCafe := text;
      showCafeList := |text| > 0;
    }

    /** `onFocus` of the café field. */
    method Focus()
      modifies this
      ensures State() == old(State()).(showCafeList := selectedCafe != [])
      ensures old(Valid()) ==> Valid()
    {
      showCafeList := |selectedCafe| > 0;
    }

    /** Pressing a suggestion: its name fills the field, so the later lookup
        by name cannot miss. */
    method PickSuggestion(c: Cafe)
      requires c in Suggestions()
      modifies this
      ensures State() == old(State()).(selectedCafe := c.name, showCafeList := false)
      ensures FindByName(cafes, selectedCafe).Some?
      ensures old(Valid()) ==> Valid()
    {
      selectedCafe := c.name;
      showCafeList := false;
    }

    /** One of the five star buttons. */
    method PressStar(star: int)
      requires 1 <= star <= 5
      modifies this
      ensures State() == old(State()).(rating := star)
      ensures Valid()
    {
      rating := star;
    }

    method EditComment(text: string)
      modifies this
      ensures State() == old(State()).(comment := text)
      ensures old(Valid()) ==> Valid()
    {
      comment := text;
    }

    /** `toggleTag(tag)` */
    method ToggleTag(tag: string)
      modifies this
      ensures State() == old(State()).(selectedTags := Toggle(old(selectedTags), tag))
      ensures tag in selectedTags <==> tag !in old(selectedTags)
      ensures forall t :: t != tag ==> (t in selectedTags <==> t in old(selectedTags))
      ensures old(Valid()) ==> Valid()
    {
      selectedTags := Toggle(selectedTags, tag);
    }

    /** `handleSubmitRating()`. `user` is the signed-in user from context,
        `ratingId`, `now` and `txError` are what `createRating` draws from the
        backend and the clock. */
    method SubmitRating(db: Backend.Store, user: Option<User>, ratingId: string, now: Timestamp, txError: Option<string>)
      returns (outcome: Submission)
      requires Valid()
      modifies this, db
      ensures Valid()
      ensures old(db.Valid()) ==> db.Valid()
      ensures db.users == old(db.users)
      ensures Precheck(old(selectedCafe), old(rating), old(comment)).Some? ==>
        && outcome == Precheck(old(selectedCafe), old(rating), old(comment)).value
        && State() == old(State())
        && db.cafes == old(db.cafes) && db.ratings == old(db.ratings)
      ensures Precheck(old(selectedCafe), old(rating), old(comment)).None? ==>
        State() == old(State()).(loading := false)
      ensures Precheck(old(selectedCafe), old(rating), old(comment)).None? ==>
        var found := FindByName(old(cafes), old(selectedCafe));
        if found.None? then
          outcome == CafeNotFound && db.cafes == old(db.cafes) && db.ratings == old(db.ratings)
        else if user.None? then
          outcome == Rejected(SubmitCrashed) && db.cafes == old(db.cafes) && db.ratings == old(db.ratings)
        else
          var data := Payload(user.value, found.value, old(rating), old(comment), old(selectedTags));
          if txError.Some? then
            outcome == Rejected(txError.value) && db.cafes == old(db.cafes) && db.ratings == old(db.ratings)
          else
            && outcome == Sent(RatingService.NewRatingDoc(ratingId, data, [], now))
            && db.ratings == old(db.ratings)[data.cafeId := old(db.RatingsOf(data.cafeId))[ratingId := outcome.rating]]
            && db.cafes == if data.cafeId in old(db.cafes)
                           then old(db.cafes)[data.cafeId := RatingService.RatedCafe(old(db.cafes)[data.cafeId], data.stars, now)]
                           else old(db.cafes)
      ensures outcome.Sent? ==> 1 <= outcome.rating.stars <= 5 && outcome.rating.images == [] && outcome.rating.helpful == 0
    {
      var check := Precheck(selectedCafe, rating, comment);
      if check.Some? {
        return check.value;
      }
      loading := true;
      var found := FindByName(cafes, selectedCafe);
      if found.None? {
        loading := false;
        return CafeNotFound;
      }
      if user.None? {
        loading := false;
        return Rejected(SubmitCrashed);
      }
      var data := Payload(user.value, found.value, rating, comment, selectedTags);
      var result := RatingService.CreateRating(db, data, ratingId, [], now, txError);
      loading := false;
      if result.Success? {
        outcome := Sent(result.value);
      } else {
        outcome := Rejected(result.error);
      }
    }

    /** The OK button of the success alert. */
    method ConfirmSuccess()
      modifies this
      ensures State() == old(State()).(selectedCafe := [], rating := 0, comment := [], selectedTags := [])
      ensures Valid()
    {
      selectedCafe, rating, comment, selectedTags := [], 0, [], [];
    }
  }
}
