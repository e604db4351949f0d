# Coffeeco client logic in Dafny

Coffeeco is a café-rating app. It is a thin client over a hosted document database and a blob store. Users do four things:
- register and sign in, with e-mail or a social provider;
- register cafés;
- search cafés by name prefix and tags;
- rate cafés with one to five stars, a comment and tags.

This project models the logic that lives in the client:
- **the services:**
  - the rating aggregate that `createRating` folds each new rating into;
  - the best-effort image upload loop;
  - the documents `registerCafe`, `registerUser`, `socialLogin` and `handleRedirectResult` write;
  - the queries behind `searchCafes` and `getPopularCafes`;
  - the `generateUsername` string pipeline;
  - `getProviderName`.
- **three screens:**
  - the rating form (`UploadScreen`): guard chain, café lookup, suggestions, tag toggling, reset;
  - the search tab (`SearchScreen`): debounced search, popular list, displayed list, tag chips;
  - the sign-up form (`RegisterScreen`): validation chain, defaults, account type.

## How the model is built

- **Backend state.** The database is `Backend.Store`, a class with three maps:
  - `cafes`;
  - `ratings`, keyed by café id and then rating id;
  - `users`.

  The service operations that write (`createRating`, `registerCafe`, `registerUser`, `socialLogin`, `handleRedirectResult`) are methods that `modifies` the store. Their postconditions give the whole new state of all three maps, one case per outcome. `searchCafes` and `getPopularCafes` take the collection as a list, and `loginUser` only reads the store.

  The ghost predicate `Store.Valid` says every stored aggregate has a breakdown that sums to its count. Every write preserves it.
- **Outside answers become parameters.** The model never calls the outside world. Instead, its answers arrive as parameters:
  - the blob store gives one `Option<Url>` per image;
  - a failed transaction or write gives an error message;
  - the identity provider gives a uid or an error;
  - the clock gives a `Timestamp`;
  - generated document ids are strings;
  - the random username suffixes are numbers below 10000.
- **Averages are exact integers.** An average is kept in tenths (4.5 is stored as 45), so no floating point is involved. `Math.round(x * 10) / 10` becomes a half-up integer rounding of `10 * total / count`.
- **Queries run over a list.** A query runs over `docs`, the café collection as the backend lists it:
  - `where` becomes a filter;
  - `orderBy` becomes a stable insertion sort;
  - `limit` becomes a take.

  Ordering on `rating.average` drops documents that lack the field, as the database does.
- **Screens are classes.** Each screen is a class whose fields are its React state variables, and each event handler is a method.

  `handleSubmitRating` and `handleRegister` return the alert they end with, as a datatype.

  The async handlers run as one step. `loading` is set around the awaited call and is false again when the method returns.
- **Strings.** Strings are sequences of code points.
  - `Text.IsSpace` is JavaScript's `\s` class, character by character.
  - `Text.Utf16Length` is JavaScript's `length`.
  - Lower-casing covers ASCII letters only.

  The code deletes every character outside `[a-z0-9_]` after lower-casing, so accented letters vanish: "Ana María" becomes "ana_mara". The model follows the code here (`AuthService.AccentedNameExample`).

## Model

| member | source | states |
|---|---|---|
| Documents.CurrentRating | services/ratingService.js:36 | a café without a `rating` field is read as average 0, count 0 and the all-zero breakdown; a stored `rating` is read as it is |
| Documents.TotalAfterIncrement | services/ratingService.js:42-43 | raising one breakdown entry by one raises the breakdown total by exactly one. A missing entry counts as 0 and is created at 1 |
| Documents.ZeroAggregateConsistent | services/ratingService.js:36 | the default aggregate's breakdown sums to its count (0), and every star's entry reads 0 |
| Backend.Store.PutCafe | services/cafeService.js:31 | `setDoc` on a café replaces exactly that café; ratings and users are unchanged |
| Backend.Store.PutRating | services/ratingService.js:29 | `set` of a rating adds or replaces exactly that rating under its café; cafés and users are unchanged |
| Backend.Store.PutUser | services/authService.js:51 | `setDoc` on a profile replaces exactly that profile; the other maps are unchanged |
| Backend.Store.SetLastLogin | services/authService.js:125-127 | `updateDoc` of `lastLogin` changes only that field of that profile |
| Uploads.Successes | services/ratingService.js:63-86 | the URL list has one entry per successful upload, so it is never longer than the image list |
| Uploads.SuccessPosition | services/ratingService.js:63-86 | the URL of image i sits right after the URLs of the successful images before i: nothing is reordered or lost |
| Uploads.OrderPreserved | services/cafeService.js:44-63 | two successful uploads appear in the result in the order of their images |
| Uploads.AllOrNothing | services/cafeService.js:60-62 | a failed upload is skipped, not fatal: all failures give [], no failures keep every URL |
| Uploads.UploadImages | services/ratingService.js:62-87 | the for-loop with its per-image try/catch returns exactly the successful URLs in input order |
| RatingService.RoundHalfUp | services/ratingService.js:46 | `Math.round(num / den)`: the result is within one half of the quotient, and ties round up |
| RatingService.AddRating | services/ratingService.js:36-47 | count +1; the submitted star's entry +1 (missing counts as 0); every other entry unchanged; the new average is (old average × old count + star) / new count, rounded half-up to tenths |
| RatingService.AddRatingKeepsConsistent | services/ratingService.js:38-47 | if the breakdown summed to the count before a rating, it still does after |
| RatingService.AverageStaysInRange | services/ratingService.js:39-46 | with stars 1..5 and an old average in 0..5, the new average is in 0..5 |
| RatingService.FirstRatingSetsAverage | services/ratingService.js:36-46 | on a café with count 0, including one with no `rating` field, the first rating sets the average to exactly the star value and the count to 1 |
| RatingService.WorkedExample | services/ratingService.js:39-46 | 4.5 over two ratings (one 5, one 4) plus a 3 gives 4.0 over three, with a new entry for 3 |
| RatingService.NewRatingDoc | services/ratingService.js:18-25 | the stored rating has `helpful` 0 and the uploaded URLs as `images`, overriding the caller's `images`. Its `id` is the caller's own `id` when present (the spread follows `id`), else the generated one. `cafeId`, `userId`, `userName`, `userAvatar`, the star value, the comment and the tags are the caller's |
| RatingService.RatedCafe | services/ratingService.js:44-49 | the transaction's `update` changes the café's aggregate and `updatedAt`, and nothing else |
| RatingService.CreateRating | services/ratingService.js:7-59 | images are uploaded only when there are some. A failed transaction writes nothing and returns its message. Otherwise the rating is stored whether or not the café exists, and only an existing café gets the new aggregate. Users never change, and the breakdown invariant is kept |
| CafeService.NewCafeDoc | services/cafeService.js:18-29 | the new café has the uploaded URLs as `images`, the zero aggregate, and the caller's `id` if it supplies one, else the generated id |
| CafeService.NewCafeStartsUnrated | services/cafeService.js:22-26 | a new café starts at average 0 and count 0, with entries exactly for stars 1..5, all 0, and a consistent aggregate |
| CafeService.RegisterCafe | services/cafeService.js:7-38 | a failed write stores nothing and returns the message. Otherwise exactly the new café is stored under the generated id. Ratings and users are unchanged, and the invariant is kept |
| CafeService.StrLeTotal | services/cafeService.js:78 | the name order compares any two names |
| CafeService.StrLeTrans | services/cafeService.js:78 | the name order is transitive, so `orderBy("name")` ranks consistently |
| CafeService.NameRangeIsPrefixSearch | services/cafeService.js:76-77 | `term <= name <= term + "\uf8ff"` holds exactly when the name starts with the term and continues with nothing, with a character below U+F8FF, or with U+F8FF alone |
| CafeService.NameQueryResult | services/cafeService.js:73-80 | with a term, the query returns at most `limit` cafés. All are from the collection and start with the term, and they are in ascending name order. When fewer than `limit` come back, every match is included; otherwise they are the first `limit` matches by name: a match left out sorts after every returned café |
| CafeService.AverageQueryResult | services/cafeService.js:81-83 | without a term, the query returns at most `limit` rated cafés, ordered by average descending. When fewer come back, every rated café is included; otherwise they are the highest rated: a rated café left out has an average no higher than any returned |
| CafeService.TagFilterKeepsMatches | services/cafeService.js:93-95 | with no tags, the list is returned unchanged. With tags, a café is kept iff it carries at least one of them: cafés without `tags` are dropped, and the survivors keep their order |
| CafeService.CollectSnapshot | services/cafeService.js:85-90 | the `forEach`/`push` loop copies the snapshot exactly |
| CafeService.SearchCafes | services/cafeService.js:69-102 | a failed read returns its message. A non-empty term runs the name-range query and an empty term runs the average query, each followed by the tag filter |
| CafeService.PopularQueryResult | services/cafeService.js:105-112 | at most `limit` rated cafés, by average descending and then by count descending. When fewer come back, every rated café is included; otherwise they are the most popular: a rated café left out ranks at or below every returned one |
| CafeService.GetPopularCafes | services/cafeService.js:105-126 | a failed read returns its message; otherwise the result is the popularity query |
| Text.ToLower | services/authService.js:218 | `toLowerCase` keeps the length and maps ASCII capitals to lower case, character by character |
| Text.LowerChar | services/authService.js:218 | a capital A-Z becomes the same letter in lower case; every other character is unchanged |
| Text.Trim | src/screens/UploadScreen.js:76 | `trim()` returns a slice of the input with only whitespace cut off before and after it, and the slice neither starts nor ends with whitespace |
| Text.TrimEmptyIffBlank | src/screens/UploadScreen.js:76 | `!comment.trim()` holds exactly when the comment is whitespace only |
| Text.EverythingContainsEmpty | src/screens/UploadScreen.js:127 | every string `includes` the empty string |
| Text.Utf16Length | src/screens/RegisterScreen.js:45 | JavaScript's `length` is between the number of code points and twice that |
| Text.Digits | services/authService.js:216 | `${n}` is a non-empty run of decimal digits that spells n, with no leading zero except for 0 itself, and at most four digits for n < 10000 |
| AuthService.CollapseSpaces | services/authService.js:219 | `replace(/\s+/g, "_")` leaves no whitespace and never lengthens the text |
| AuthService.CollapseRun | services/authService.js:219 | a maximal whitespace run becomes exactly one `_`, and the text on either side is processed independently |
| AuthService.CollapseNoSpaces | services/authService.js:219 | text without whitespace passes the replacement unchanged |
| AuthService.Slug | services/authService.js:217-221 | the pipeline's output has at most 15 characters, all in `[a-z0-9_]` |
| AuthService.GenerateUsername | services/authService.js:214-222 | at most 15 characters, all in `[a-z0-9_]`; an empty name gives `user_` followed by the random number |
| AuthService.GenerateUsernameIdempotent | services/authService.js:217-221 | applying `generateUsername` to its own non-empty output returns it unchanged |
| AuthService.OnlyDeletedCharsGiveEmpty | services/authService.js:216-221 | a non-empty name made only of characters that the pipeline deletes gives "", with no fallback |
| AuthService.SpacedNameExample | services/authService.js:217-221 | "John Q Public" becomes "john_q_public" |
| AuthService.AccentedNameExample | services/authService.js:217-221 | "Ana María" becomes "ana_mara": the accented letter is deleted |
| AuthService.ProviderName | services/authService.js:224-235 | "google.com", "facebook.com" and "apple.com" map to "Google", "Facebook" and "Apple", each iff; every other id maps to "Social" |
| AuthService.RegisteredUserDoc | services/authService.js:35-49 | the profile is keyed by uid. Type defaults to "normal", the bio is the form's, the avatar is "", all stats are 0, and there is no provider |
| AuthService.SocialUserDoc | services/authService.js:104-119 | a first social profile has type "normal", bio "", zero stats and the provider. Its name falls back to "Usuario <provider>", its avatar is the photo or "", and its username is valid and at most 15 characters. With a display name the username is `generateUsername` of that name |
| AuthService.SocialUsernameWithoutDisplayName | services/authService.js:108 | without a display name, the username is `user_` followed by the first random number; the inner fallback of `generateUsername` is never reached |
| AuthService.RegisterUser | services/authService.js:26-58 | the first failure among account creation, `updateProfile` and `setDoc` is returned, and nothing is written. Otherwise exactly the new profile is stored under the uid and returned |
| AuthService.SocialLogin | services/authService.js:81-136 | off the web: pending (or the redirect's error), and nothing is written. On the web: no profile and new creates the profile; an existing profile gets only `lastLogin` and returns the data from before the update; no profile and not new fails with nothing written |
| AuthService.HandleRedirectResult | services/authService.js:154-194 | an error thrown by `getRedirectResult` is returned as its message with nothing written. No redirect result fails. An existing profile is returned unchanged. A missing one is created with `getProviderName` of the provider id, whatever the provider says about the user being new |
| AuthService.LoginUser | services/authService.js:60-76 | sign-in errors are returned. Otherwise the stored profile is returned, or "Usuario no encontrado en la base de datos" when none exists |
| AuthService.SessionUser | services/authService.js:248-261 | the callback receives the stored profile exactly when someone is signed in and a profile exists, else null |
| Seqs.Filter | src/screens/UploadScreen.js:127 | `filter` keeps exactly the elements that pass, and is never longer than its input |
| Seqs.FilterIsSubsequence | services/cafeService.js:94 | filtering keeps the survivors in their original relative order |
| Seqs.SubsequenceTrans | src/screens/UploadScreen.js:127-155 | a subsequence of a subsequence is a subsequence, so the first five of the filtered cafés keep the loaded order |
| Seqs.Take | src/screens/UploadScreen.js:155 | `slice(0, n)` is a prefix, and has length n when there are at least n elements |
| Seqs.Toggle | src/screens/UploadScreen.js:62-64 | the tag's membership flips. Other tags keep their membership. Removal keeps the others' order, and an absent tag is appended at the end |
| Seqs.ToggleTwice | src/screens/SearchScreen.js:91-93 | toggling an absent tag twice gives back the original list |
| Seqs.SortBySorted | services/cafeService.js:78 | the stable insertion sort used for `orderBy` yields a sorted list |
| Seqs.QueryResult | services/cafeService.js:107-112 | a filter/sort/take query returns at most `limit` elements, each from the collection and passing the filter, in order. When fewer than `limit` come back, every match is included. For a transitive order the result is the top of the ranking: a match left out ranks no higher than any returned element |
| Seqs.TakeIsTop | services/cafeService.js:107-112 | the first `limit` elements of a sorted list precede every element left out |
| UploadScreen.Precheck | src/screens/UploadScreen.js:66-80 | the guards run in order: empty café text, then rating 0, then a whitespace-only comment; all pass iff none applies |
| UploadScreen.FindByName | src/screens/UploadScreen.js:85-89 | `find` by exact name gives the first café with that name, or nothing iff no café has it |
| UploadScreen.Payload | src/screens/UploadScreen.js:92-100 | the payload has the trimmed comment, userName falling back to "Usuario", the avatar, the selected tags, and no images |
| UploadScreen.SuggestionsMatch | src/screens/UploadScreen.js:127-155 | the suggestions are the first five matches in load order: at most five, each a loaded café whose name contains the typed text ignoring case, a prefix of the full match list and in the loaded list's order, and every match when fewer than five appear; empty text matches every café |
| UploadScreen.UploadForm.Suggestions | src/screens/UploadScreen.js:154-155 | the list is shown only while `showCafeList`. It then is a prefix of the matching cafés in load order, holds at most five, each one matches the text, and it holds every match when fewer than five appear |
| UploadScreen.UploadForm.constructor | src/screens/UploadScreen.js:38-45 | the form starts empty, with rating 0 |
| UploadScreen.UploadForm.LoadCafes | src/screens/UploadScreen.js:51-60 | on mount, the list becomes the 20 most popular cafés; a failed read leaves it unchanged |
| UploadScreen.UploadForm.TypeCafe | src/screens/UploadScreen.js:145-148 | the text is stored, and the list is shown iff the text is non-empty |
| UploadScreen.UploadForm.Focus | src/screens/UploadScreen.js:149 | focusing shows the list iff the field is non-empty |
| UploadScreen.UploadForm.PickSuggestion | src/screens/UploadScreen.js:159-162 | picking a suggestion fills in its name and hides the list, so the later lookup by name cannot miss |
| UploadScreen.UploadForm.PressStar | src/screens/UploadScreen.js:176-177 | only the stars 1..5 set the rating, so the rating stays in 0..5 |
| UploadScreen.UploadForm.EditComment | src/screens/UploadScreen.js:195 | the comment field is replaced |
| UploadScreen.UploadForm.ToggleTag | src/screens/UploadScreen.js:62-64 | the tag's membership flips and other tags keep their membership |
| UploadScreen.UploadForm.SubmitRating | src/screens/UploadScreen.js:66-125 | a failed guard changes nothing. An unknown café or a missing user sends nothing. Otherwise `createRating` runs with the payload and no images. The form keeps its fields, `loading` ends false, and any rating sent has stars in 1..5 |
| UploadScreen.UploadForm.ConfirmSuccess | src/screens/UploadScreen.js:108-112 | OK on the success alert resets the café, rating, comment and tags |
| SearchScreen.TagChips | src/screens/SearchScreen.js:135-140 | a card shows the first three tags, plus "+(n-3)" exactly when there are more than three |
| SearchScreen.ChipsAccountForEveryTag | src/screens/SearchScreen.js:135-140 | the shown tags plus the counter's number account for every tag |
| SearchScreen.SearchView.DisplayCafes | src/screens/SearchScreen.js:146 | the search results while a query or tag is active, else the popular list |
| SearchScreen.SearchView.constructor | src/screens/SearchScreen.js:38-42 | the screen starts with no query, tags or results |
| SearchScreen.SearchView.SetQuery | src/screens/SearchScreen.js:158 | the query field is replaced |
| SearchScreen.SearchView.ToggleTag | src/screens/SearchScreen.js:91-93 | the tag's membership flips and other tags keep their membership |
| SearchScreen.SearchView.DebouncedSearch | src/screens/SearchScreen.js:48-58 | a query or tag runs `searchCafes` with limit 20 and stores its result (a failure keeps the old one); no filter clears the results, so the popular list is displayed |
| SearchScreen.SearchView.LoadPopular | src/screens/SearchScreen.js:60-75 | the popular list holds at most 10 cafés. It is copied into the results only when the query and tags the closure sees are empty, and a failure changes no list |
| SearchScreen.PopularArrivesAfterSearch | src/screens/SearchScreen.js:44-46 | after a query's search completes, a late popular answer replaces what is displayed, even though the query is still active |
| SearchScreen.SearchView.LoadPopularFresh | src/screens/SearchScreen.js:66-68 | with the check reading the current state, an active search's displayed results are never replaced |
| SearchScreen.PopularArrivesAfterSearchFixed | src/screens/SearchScreen.js:66-68 | with the fixed check, the same sequence displays the name search results |
| RegisterScreen.Validate | src/screens/RegisterScreen.js:35-48 | first failure wins: a missing name, username, e-mail or password, then a mismatched confirmation, then fewer than 6 UTF-16 units. Each verdict holds iff its conditions do |
| RegisterScreen.BioIsOptional | src/screens/RegisterScreen.js:35 | the bio never affects the verdict |
| RegisterScreen.EmptyConfirmationMismatches | src/screens/RegisterScreen.js:40-43 | an empty confirmation of a filled-in password is a mismatch |
| RegisterScreen.PasswordLengthBounds | src/screens/RegisterScreen.js:45-48 | six or more characters always pass, and fewer than three never do |
| RegisterScreen.WithField | src/screens/RegisterScreen.js:90-177 | editing a text field never changes the account type |
| RegisterScreen.RegisterForm.constructor | src/screens/RegisterScreen.js:22-31 | the form starts with empty text fields, type "normal" and not loading |
| RegisterScreen.RegisterForm.Edit | src/screens/RegisterScreen.js:90-177 | one field changes, and the type stays "normal" or "cafe_owner" |
| RegisterScreen.RegisterForm.ChooseType | src/screens/RegisterScreen.js:153-161 | the type becomes "cafe_owner" or "normal", and nothing else changes |
| RegisterScreen.RegisterForm.HandleRegister | src/screens/RegisterScreen.js:34-65 | a failed check returns its alert and writes nothing. Otherwise `registerUser` runs with the form's fields, and a success stores the profile with the chosen type. `loading` ends false |

## Findings

| source | as written | input that shows it | evidently intended | confidence | as-written member | corrected member |
|---|---|---|---|---|---|---|
| src/screens/SearchScreen.js:44-46,66-68 | `loadPopularCafes` runs only from the mount effect. Its check `!searchQuery && selectedTags.length === 0` reads the mount-time state, which is always "" and [], so the check always passes | mount, type "a" and let its search complete, then receive the popular answer: the screen still filters on "a" but displays the popular list | the popular answer replaces the results only while no query or tag is active | medium, not executed | SearchScreen.PopularArrivesAfterSearch | SearchScreen.SearchView.LoadPopularFresh |

## Left out

- Floating point: averages are exact integer tenths. The stored average is re-rounded at every rating, so the model does not relate it to the mean of the breakdown.
- Text.LowerChar: lower-cases ASCII letters only. For usernames this differs from `toLowerCase` only on characters whose lower case contains an ASCII letter: "İ" (U+0130) and the Kelvin sign (U+212A). JavaScript keeps an "i" or "k" for them, while this model deletes them. Other non-ASCII letters are deleted either way.
- Transactions: the transaction body is one atomic state step, and the database's retry on conflict is not modelled. `createRating` calls `transaction.set` (services/ratingService.js:29) before `transaction.get` (:32), and the database client rejects a transaction whose reads follow a write. So as written every `createRating` returns `success: false` and stores nothing: that is the `txError.Some?` case of `RatingService.CreateRating`. Its `txError.None?` case models the transaction as its authors intended (store the rating, read the café, update its aggregate), not the program as written.
- Concurrency: no other client writes between steps.
- Tie order: among equal sort keys the model keeps collection order; the database breaks ties by document id.
- Storage paths and file names of uploaded images: they do not affect any result, so they are not modelled.
- Image input: `fetch`/blob conversion of string images is not modelled; each upload's outcome is given.
- Timing: the 500 ms debounce, its cancellation on a new keystroke, and the interleaving of async answers are not modelled. `DebouncedSearch` is the timer callback that finally fires, and the order of answers is chosen by the caller.
- Rendering: layout, icons, star drawing, `toFixed`, navigation and the `Alert` texts are not modelled; the alerts appear as outcome values.
- Reads: `getDoc` failures in `socialLogin`, `handleRedirectResult`, `loginUser` and `onAuthStateChange` are not modelled; the `getDoc` reads in these methods always succeed.
- Passwords: they are handled by the identity provider, whose answer is a parameter.
- Social sign-in: `handleRedirectResult` assumes the redirect user has at least one provider entry.
- Sign-up errors: the `catch` of `handleRegister` is not modelled, because `registerUser` catches its own errors.
- Optional fields: fields the screens and services do not use are not modelled; that covers the location object beyond `address`, menus and contact details.
- AuthService.SessionUser: models one event of the `onAuthStateChanged` subscription, not the subscription itself.
- Other operations: `linkAccounts`, `logoutUser`, `getCurrentUser`, the `loginWith*` wrappers and `getCafeRatings` are not modelled.
- `limit(0)`: the database rejects it, but here it gives an empty list.
- Other parts of the app: the other screens, the web components, the Firebase configuration and the connection script are not part of this model.
