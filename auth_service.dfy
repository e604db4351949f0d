/** The user-profile side of authentication: username derivation, provider
    names, and the profile documents written by `registerUser`, `socialLogin`
    and `handleRedirectResult`. The identity provider is an oracle: its answers
    come in as parameters. */
module AuthService {
  import opened Wrappers
  import opened Documents
  import opened Text
  import opened Seqs
  import Backend

  // ------------------------------------------------------------ usernames

  predicate IsUsernameChar(c: char) {
    'a' <= c <= 'z' || '0' <= c <= '9' || c == '_'
  }

  predicate IsUsername(s: string) {
    forall i :: 0 <= i < |s| ==> IsUsernameChar(s[i])
  }

  const MaxUsernameLength := 15

  /** `.replace(/\s+/g, "_")`: every maximal run of whitespace becomes one `_`. */
  function CollapseSpaces(s: string): (r: string)
    ensures forall i :: 0 <= i < |r| ==> !IsSpace(r[i])
    ensures |r| <= |s|
    decreases |s|
  {
    if s == [] then []
    else if IsSpace(s[0]) then "_" + CollapseSpaces(s[LeadingSpaces(s)..])
    else [s[0]] + CollapseSpaces(s[1..])
  }

  /** `.toLowerCase().replace(/\s+/g, "_").replace(/[^a-z0-9_]/g, "").substring(0, 15)` */
  function Slug(name: string): (r: string)
    ensures |r| <= MaxUsernameLength && IsUsername(r)
  {
    var kept := Filter(CollapseSpaces(ToLower(name)), IsUsernameChar);
    assert forall i :: 0 <= i < |kept| ==> kept[i] in kept;
    Take(kept, MaxUsernameLength)
  }

  /** `generateUsername(name)`; `suffix` is `Math.floor(Math.random() * 10000)`. */
  function GenerateUsername(name: string, suffix: nat): (r: string)
    requires suffix < 10000
    ensures |r| <= MaxUsernameLength && IsUsername(r)
    ensures name == [] ==> r == "user_" + Digits(suffix)
  {
    if name == [] then StandInIsUsername(suffix); "user_" + Digits(suffix) else Slug(name)
  }

  /** A whitespace run inside a name turns into exactly one `_`, and the text
      on either side is processed independently. */
  lemma {:induction false} CollapseRun(a: string, w: string, b: string)
    requires a == [] || !IsSpace(a[|a| - 1])
    requires w != [] && IsBlank(w)
    requires b == [] || !IsSpace(b[0])
    ensures CollapseSpaces(a + w + b) == CollapseSpaces(a) + "_" + CollapseSpaces(b)
    decreases |a|, 1
  {
    if a == [] {
      LeadingSpacesOfRun(w, b);
      assert a + w + b == w + b;
      assert (w + b)[|w|..] == b;
    } else if IsSpace(a[0]) {
      CollapseRunAfterSpace(a, w, b);
    } else {
      CollapseRunAfterChar(a, w, b);
    }
  }

  lemma {:induction false} CollapseRunAfterSpace(a: string, w: string, b: string)
    requires a != [] && IsSpace(a[0]) && !IsSpace(a[|a| - 1])
    requires w != [] && IsBlank(w)
    requires b == [] || !IsSpace(b[0])
    ensures CollapseSpaces(a + w + b) == CollapseSpaces(a) + "_" + CollapseSpaces(b)
    decreases |a|, 0
  {
    var s := a + w + b;
    var k := LeadingSpaces(a);
    LeadingSpacesAppend(a, w + b);
    assert s == a + (w + b);
    var rest := a[k..];
    assert s[k..] == rest + w + b;
    assert rest[|rest| - 1] == a[|a| - 1];
    CollapseRun(rest, w, b);
  }

  lemma {:induction false} CollapseRunAfterChar(a: string, w: string, b: string)
    requires a != [] && !IsSpace(a[0]) && !IsSpace(a[|a| - 1])
    requires w != [] && IsBlank(w)
    requires b == [] || !IsSpace(b[0])
    ensures CollapseSpaces(a + w + b) == CollapseSpaces(a) + "_" + CollapseSpaces(b)
    decreases |a|, 0
  {
    var s := a + w + b;
    var rest := a[1..];
    assert s[1..] == rest + w + b;
    if rest != [] {
      assert rest[|rest| - 1] == a[|a| - 1];
    }
    CollapseRun(rest, w, b);
  }

  /** The leading whitespace of a blank run followed by non-whitespace is the run. */
  lemma {:induction false} LeadingSpacesOfRun(w: string, b: string)
    requires IsBlank(w)
    requires b == [] || !IsSpace(b[0])
    ensures LeadingSpaces(w + b) == |w|
  {
    if w == [] {
      assert w + b == b;
    } else {
      assert (w + b)[1..] == w[1..] + b;
      LeadingSpacesOfRun(w[1..], b);
    }
  }

  /** A leading whitespace run that ends inside `a` is not extended by what follows `a`. */
  lemma {:induction false} LeadingSpacesAppend(a: string, x: string)
    requires a != [] && !IsSpace(a[|a| - 1])
    ensures LeadingSpaces(a + x) == LeadingSpaces(a) < |a|
    decreases |a|
  {
    if IsSpace(a[0]) {
      assert (a + x)[1..] == a[1..] + x;
      LeadingSpacesAppend(a[1..], x);
    }
  }

  /** Text without whitespace passes the whitespace step unchanged. */
  lemma {:induction false} CollapseNoSpaces(s: string)
    requires forall i :: 0 <= i < |s| ==> !IsSpace(s[i])
    ensures CollapseSpaces(s) == s
  {
    if s != [] {
      CollapseNoSpaces(s[1..]);
    }
  }

  /** A valid username passes every step of the pipeline unchanged. */
  lemma SlugOfUsername(u: string)
    requires IsUsername(u) && |u| <= MaxUsernameLength
    ensures Slug(u) == u
  {
    assert ToLower(u) == u;
    CollapseNoSpaces(u);
    FilterKeepsAll(u, IsUsernameChar);
  }

  /** Applying `generateUsername` to its own non-empty output changes nothing. */
  lemma GenerateUsernameIdempotent(name: string, suffix: nat, suffix2: nat)
    requires suffix < 10000 && suffix2 < 10000
    requires GenerateUsername(name, suffix) != []
    ensures GenerateUsername(GenerateUsername(name, suffix), suffix2) == GenerateUsername(name, suffix)
  {
    SlugOfUsername(GenerateUsername(name, suffix));
  }

  /** A non-empty name made only of characters the pipeline deletes gives the
      empty username: the random fallback only covers an empty name. */
  lemma OnlyDeletedCharsGiveEmpty(name: string, suffix: nat)
    requires suffix < 10000 && name != []
    requires forall i :: 0 <= i < |name| ==> !IsSpace(name[i]) && !IsUsernameChar(LowerChar(name[i]))
    ensures GenerateUsername(name, suffix) == []
  {
    var lower := ToLower(name);
    CollapseNoSpaces(lower);
    var kept := Filter(lower, IsUsernameChar);
  }

  /** "John Q Public" becomes "john_q_public". */
  lemma SpacedNameExample()
    ensures Slug("John Q Public") == "john_q_public"
  {
    LowerExample();
    CollapseExample();
    FilterExample();
  }

  lemma FilterExample()
    ensures Filter("john_q_public", IsUsernameChar) == "john_q_public"
  {
    var slug := "john_q_public";
    assert IsUsername(slug);
    FilterKeepsAll(slug, IsUsernameChar);
  }

  lemma LowerExample()
    ensures ToLower("John Q Public") == "john q public"
  {
  }

  lemma CollapseExample()
    ensures CollapseSpaces("john q public") == "john_q_public"
  {
    assert "john q public" == "john" + (" " + ("q" + (" " + "public")));
    assert "john_q_public" == "john" + ("_" + ("q" + ("_" + "public")));
    CollapseThreeWords("john", "q", "public");
  }

  lemma CollapseThreeWords(x: string, y: string, z: string)
    requires x != [] && y != [] && z != []
    requires forall i :: 0 <= i < |x| ==> !IsSpace(x[i])
    requires forall i :: 0 <= i < |y| ==> !IsSpace(y[i])
    requires forall i :: 0 <= i < |z| ==> !IsSpace(z[i])
    ensures CollapseSpaces(x + (" " + (y + (" " + z)))) == x + ("_" + (y + ("_" + z)))
  {
    CollapseNoSpaces(z);
    CollapseWordThenSpace(y, z);
    var tail := y + (" " + z);
    assert tail[0] == y[0];
    CollapseWordThenSpace(x, tail);
  }

  /** Concatenation regroups freely; stated once so that proofs about
      whitespace need not rediscover it under many quantifiers. */
  lemma Associative(a: string, b: string, c: string)
    ensures a + b + c == a + (b + c)
  {
  }

  /** A word followed by one space and more text. */
  lemma CollapseWordThenSpace(x: string, t: string)
    requires x != [] && t != [] && !IsSpace(t[0])
    requires forall i :: 0 <= i < |x| ==> !IsSpace(x[i])
    ensures CollapseSpaces(x + (" " + t)) == x + ("_" + CollapseSpaces(t))
  {
    CollapseNoSpaces(x);
    assert IsBlank(" ");
    CollapseRun(x, " ", t);
    Associative(x, " ", t);
    Associative(x, "_", CollapseSpaces(t));
  }

  /** Letters outside `a`-`z` are deleted rather than transliterated:
      "Ana María" becomes "ana_mara". */
  lemma AccentedNameExample()
    ensures Slug("Ana María") == "ana_mara"
  {
    AccentedLower();
    AccentedCollapse();
    AccentedFilter();
  }

  lemma AccentedLower()
    ensures ToLower("Ana María") == "ana maría"
  {
  }

  lemma AccentedCollapse()
    ensures CollapseSpaces("ana maría") == "ana_maría"
  {
    assert "ana maría" == "ana" + " " + "maría";
    assert "ana_maría" == "ana" + "_" + "maría";
    CollapseNoSpaces("ana");
    CollapseNoSpaces("maría");
    CollapseRun("ana", " ", "maría");
  }

  lemma AccentedFilter()
    ensures Filter("ana_maría", IsUsernameChar) == "ana_mara"
  {
    assert "ana_maría" == "ana_mar" + ['í'] + "a";
    assert "ana_mara" == "ana_mar" + "a";
    assert IsUsername("ana_mar") && IsUsername("a") && !IsUsernameChar('í');
    FilterDropsOne("ana_mar", 'í', "a", IsUsernameChar);
  }

  // ------------------------------------------------------------ providers

  /** `getProviderName(providerId)` */
  function ProviderName(providerId: string): (r: string)
    ensures r in {"Google", "Facebook", "Apple", "Social"}
    ensures r == "Social" <==> providerId !in {"google.com", "facebook.com", "apple.com"}
    ensures r == "Google" <==> providerId == "google.com"
    ensures r == "Facebook" <==> providerId == "facebook.com"
    ensures r == "Apple" <==> providerId == "apple.com"
  {
    match providerId
    case "google.com" => "Google"
    case "facebook.com" => "Facebook"
    case "apple.com" => "Apple"
    case _ => "Social"
  }

  // ------------------------------------------------------------ profiles

  /** What the identity provider reports about a signed-in principal
      (`null` display name and photo read as ""). */
  datatype AuthUser = AuthUser(uid: string, email: string, displayName: string, photoUrl: string, providerId: string)

  /** The form fields `registerUser` reads from `userData`. */
  datatype Registration = Registration(name: string, username: string, accountType: string, bio: string)

  /** The profile `registerUser` writes. */
  function RegisteredUserDoc(uid: string, email: string, data: Registration, now: Timestamp): (u: User)
    ensures u.id == uid && u.email == email && u.name == data.name && u.username == data.username
    ensures u.accountType == (if data.accountType == [] then "normal" else data.accountType)
    ensures u.bio == data.bio && u.avatar == [] && u.stats == ZeroStats
    ensures u.provider.None? && u.lastLogin.None? && u.createdAt == now
  {
    User(uid, email, data.name, data.username, if data.accountType == [] then "normal" else data.accountType,
         data.bio, "", None, ZeroStats, now, None)
  }

  /** The profile `socialLogin` and `handleRedirectResult` synthesize at a
      first social sign-in. `r1` and `r2` are their two `Math.random()`
      suffixes: `r1` for the `user_<n>` stand-in name, `r2` for
      `generateUsername`'s own fallback. */
  function SocialUserDoc(who: AuthUser, providerName: string, r1: nat, r2: nat, now: Timestamp): (u: User)
    requires r1 < 10000 && r2 < 10000
    ensures u.id == who.uid && u.email == who.email
    ensures u.name == (if who.displayName != [] then who.displayName else "Usuario " + providerName)
    ensures u.accountType == "normal" && u.bio == [] && u.stats == ZeroStats
    ensures u.avatar == who.photoUrl && u.provider == Some(providerName)
    ensures IsUsername(u.username) && |u.username| <= MaxUsernameLength
    ensures who.displayName != [] ==> u.username == GenerateUsername(who.displayName, r2)
    ensures u.lastLogin.None? && u.createdAt == now
  {
    var seed := if who.displayName != [] then who.displayName else "user_" + Digits(r1);
    User(who.uid, who.email, if who.displayName != [] then who.displayName else "Usuario " + providerName,
         GenerateUsername(seed, r2), "normal", "", who.photoUrl, Some(providerName), ZeroStats, now, None)
  }

  /** Without a display name the synthesized username is `user_` and the first
      random number: `generateUsername`'s own fallback is never reached from here. */
  lemma SocialUsernameWithoutDisplayName(who: AuthUser, providerName: string, r1: nat, r2: nat, now: Timestamp)
    requires r1 < 10000 && r2 < 10000 && who.displayName == []
    ensures SocialUserDoc(who, providerName, r1, r2, now).username == "user_" + Digits(r1)
  {
    StandInIsUsername(r1);
    SlugOfUsername("user_" + Digits(r1));
  }

  lemma StandInIsUsername(n: nat)
    requires n < 10000
    ensures IsUsername("user_" + Digits(n)) && |"user_" + Digits(n)| <= MaxUsernameLength
  {
    var d := Digits(n);
    var u := "user_" + d;
    forall i | 0 <= i < |u| ensures IsUsernameChar(u[i]) {
      if i >= 5 {
        assert u[i] == d[i - 5];
      }
    }
  }

  /** The outcome of a social sign-in that did not fail. */
  datatype SignIn = Pending | SignedIn(user: User, isNewUser: Option<bool>)

  const NoSocialProfile := "Error procesando el inicio de sesión"
  const NoRedirectResult := "No hay resultado de redirección"
  const ProfileNotFound := "Usuario no encontrado en la base de datos"

  /** `registerUser(email, password, userData)`. `created` is the identity
      provider's answer (the new uid, or the error), `profileError` a failure
      of `updateProfile`, `writeError` a failure of `setDoc`. */
  method RegisterUser(db: Backend.Store, email: string, data: Registration, created: Result<string>,
                      profileError: Option<string>, writeError: Option<string>, now: Timestamp)
    returns (res: Result<User>)
    modifies db
    ensures db.cafes == old(db.cafes) && db.ratings == old(db.ratings)
    ensures created.Failure? ==> res == Failure(created.error) && db.users == old(db.users)
    ensures created.Success? && profileError.Some? ==> res == Failure(profileError.value) && db.users == old(db.users)
    ensures created.Success? && profileError.None? && writeError.Some? ==>
      res == Failure(writeError.value) && db.users == old(db.users)
    ensures created.Success? && profileError.None? && writeError.None? ==>
      && res == Success(RegisteredUserDoc(created.value, email, data, now))
      && db.users == old(db.users)[created.value := res.value]
  {
    if created.Failure? {
      return Failure(created.error);
    }
    if profileError.Some? {
      return Failure(profileError.value);
    }
    var doc := RegisteredUserDoc(created.value, email, data, now);
    if writeError.Some? {
      return Failure(writeError.value);
    }
    db.PutUser(created.value, doc);
    res := Success(doc);
  }

  /** `socialLogin(provider, providerName)`. On the web the popup answers with
      `popup` and `isNewUser`; elsewhere only starting the redirect can fail. */
  method SocialLogin(db: Backend.Store, web: bool, redirectError: Option<string>,
                     popup: Result<AuthUser>, isNewUser: bool, providerName: string,
                     r1: nat, r2: nat, now: Timestamp, writeError: Option<string>)
    returns (res: Result<SignIn>)
    requires r1 < 10000 && r2 < 10000
    modifies db
    ensures db.cafes == old(db.cafes) && db.ratings == old(db.ratings)
    ensures !web ==>
      && db.users == old(db.users)
      && res == (if redirectError.Some? then Failure(redirectError.value) else Success(Pending))
    ensures web && popup.Failure? ==> res == Failure(popup.error) && db.users == old(db.users)
    ensures web && popup.Success? && popup.value.uid !in old(db.users) && !isNewUser ==>
      res == Failure(NoSocialProfile) && db.users == old(db.users)
    ensures web && popup.Success? && popup.value.uid !in old(db.users) && isNewUser ==>
      var doc := SocialUserDoc(popup.value, providerName, r1, r2, now);
      if writeError.Some? then res == Failure(writeError.value) && db.users == old(db.users)
      else res == Success(SignedIn(doc, Some(true))) && db.users == old(db.users)[popup.value.uid := doc]
    ensures web && popup.Success? && popup.value.uid in old(db.users) ==>
      var uid := popup.value.uid;
      if writeError.Some? then res == Failure(writeError.value) && db.users == old(db.users)
      else (res == Success(SignedIn(old(db.users)[uid], Some(false)))
            && db.users == old(db.users)[uid := old(db.users)[uid].(lastLogin := Some(now))])
  {
    if !web {
      if redirectError.Some? {
        return Failure(redirectError.value);
      }
      return Success(Pending);
    }
    if popup.Failure? {
      return Failure(popup.error);
    }
    var who := popup.value;
    if who.uid !in db.users && isNewUser {
      var doc := SocialUserDoc(who, providerName, r1, r2, now);
      if writeError.Some? {
        return Failure(writeError.value);
      }
      db.PutUser(who.uid, doc);
      return Success(SignedIn(doc, Some(true)));
    } else if who.uid in db.users {
      var existing := db.users[who.uid];
      if writeError.Some? {
        return Failure(writeError.value);
      }
      db.SetLastLogin(who.uid, now);
      return Success(SignedIn(existing, Some(false)));
    }
    res := Failure(NoSocialProfile);
  }

  /** `handleRedirectResult()`: `redirect` is what `getRedirectResult` gave
      (`Success(None)` for no pending result, `Failure` for the message of
      the error it threw). A missing profile is created whatever the provider
      says about the user being new. */
  method HandleRedirectResult(db: Backend.Store, redirect: Result<Option<AuthUser>>,
                              r1: nat, r2: nat, now: Timestamp, writeError: Option<string>)
    returns (res: Result<SignIn>)
    requires r1 < 10000 && r2 < 10000
    modifies db
    ensures db.cafes == old(db.cafes) && db.ratings == old(db.ratings)
    ensures redirect.Failure? ==> res == Failure(redirect.error) && db.users == old(db.users)
    ensures redirect == Success(None) ==> res == Failure(NoRedirectResult) && db.users == old(db.users)
    ensures redirect.Success? && redirect.value.Some? && redirect.value.value.uid in old(db.users) ==>
      res == Success(SignedIn(old(db.users)[redirect.value.value.uid], None)) && db.users == old(db.users)
    ensures redirect.Success? && redirect.value.Some? && redirect.value.value.uid !in old(db.users) ==>
      var who := redirect.value.value;
      var doc := SocialUserDoc(who, ProviderName(who.providerId), r1, r2, now);
      if writeError.Some? then res == Failure(writeError.value) && db.users == old(db.users)
      else res == Success(SignedIn(doc, Some(true))) && db.users == old(db.users)[who.uid := doc]
  {
    if redirect.Failure? {
      return Failure(redirect.error);
    }
    if redirect.value.None? {
      return Failure(NoRedirectResult);
    }
    var who := redirect.value.value;
    if who.uid in db.users {
      return Success(SignedIn(db.users[who.uid], None));
    }
    var doc := SocialUserDoc(who, ProviderName(who.providerId), r1, r2, now);
    if writeError.Some? {
      return Failure(writeError.value);
    }
    db.PutUser(who.uid, doc);
    res := Success(SignedIn(doc, Some(true)));
  }

  /** `loginUser(email, password)`: `signIn` is the identity provider's
      answer (the uid, or the error). */
  method LoginUser(db: Backend.Store, signIn: Result<string>) returns (res: Result<User>)
    ensures signIn.Failure? ==> res == Failure(signIn.error)
    ensures signIn.Success? && signIn.value in db.users ==> res == Success(db.users[signIn.value])
    ensures signIn.Success? && signIn.value !in db.users ==> res == Failure(ProfileNotFound)
  {
    if signIn.Failure? {
      return Failure(signIn.error);
    }
    if signIn.value in db.users {
      return Success(db.users[signIn.value]);
    }
    res := Failure(ProfileNotFound);
  }

  /** What `onAuthStateChange` hands its callback for one identity event:
      the profile of the signed-in principal, or nothing when signed out or
      when no profile exists yet. */
  function SessionUser(users: map<string, User>, principal: Option<string>): (r: Option<User>)
    ensures r.Some? <==> principal.Some? && principal.value in users
    ensures r.Some? ==> r.value == users[principal.value]
  {
    if principal.Some? && principal.value in users then Some(users[principal.value]) else None
  }
}
