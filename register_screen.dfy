/** The sign-up form: field edits, the account-type switch, and the chain of
    checks that decides whether `registerUser` is called. */
module RegisterScreen {
  import opened Wrappers
  import opened Documents
  import opened Text
  import Backend
  import AuthService

  const MinPasswordLength: nat := 6

  /** `formData`; `accountType` is the `type` field. */
  datatype FormData = FormData(
    name: string,
    username: string,
    email: string,
    password: string,
    confirmPassword: string,
    accountType: string,
    bio: string)

  const EmptyForm := FormData([], [], [], [], [], "normal", [])

  /** The alert a failed check shows. */
  datatype Rejection =
    | MissingFields       // "Por favor completa todos los campos obligatorios"
    | PasswordMismatch    // "Las contraseñas no coinciden"
    | PasswordTooShort    // "La contraseña debe tener al menos 6 caracteres"

  predicate HasRequiredFields(f: FormData) {
    f.name != [] && f.username != [] && f.email != [] && f.password != []
  }

  /** The checks of `handleRegister`, first failure wins; the password length
      is JavaScript's, in UTF-16 code units. */
  function Validate(f: FormData): (r: Option<Rejection>)
    ensures r == Some(MissingFields) <==> !HasRequiredFields(f)
    ensures r == Some(PasswordMismatch) <==> HasRequiredFields(f) && f.password != f.confirmPassword
    ensures r == Some(PasswordTooShort) <==>
      HasRequiredFields(f) && f.password == f.confirmPassword && Utf16Length(f.password) < MinPasswordLength
    ensures r.None? <==>
      HasRequiredFields(f) && f.password == f.confirmPassword && Utf16Length(f.password) >= MinPasswordLength
  {
    if !HasRequiredFields(f) then Some(MissingFields)
    else if f.password != f.confirmPassword then Some(PasswordMismatch)
    else if Utf16Length(f.password) < MinPasswordLength then Some(PasswordTooShort)
    else None
  }

  /** The bio is never required: any bio, empty or not, gets the same verdict. */
  lemma BioIsOptional(f: FormData, bio: string)
    ensures Validate(f.(bio := bio)) == Validate(f)
  {
  }

  /** An empty confirmation of a non-empty password is a mismatch. */
  lemma EmptyConfirmationMismatches(f: FormData)
    requires HasRequiredFields(f) && f.confirmPassword == []
    ensures Validate(f) == Some(PasswordMismatch)
  {
  }

  /** Six characters are always enough and fewer than three never are; in
      between it depends on how many characters lie outside the Basic
      Multilingual Plane. */
  lemma PasswordLengthBounds(f: FormData)
    requires HasRequiredFields(f) && f.password == f.confirmPassword
    ensures |f.password| >= MinPasswordLength ==> Validate(f).None?
    ensures 2 * |f.password| < MinPasswordLength ==> Validate(f) == Some(PasswordTooShort)
  {
  }

  /** What `handleRegister` ends with. */
  datatype RegisterOutcome =
    | Invalid(reason: Rejection)
    | Failed(message: string)
    | Registered(user: User)   // "Tu cuenta ha sido creada exitosamente"

  /** The text fields of the form. */
  datatype Field = Name | Username | Email | Password | ConfirmPassword | Bio

  /** `setFormData((prev) => ({ ...prev, <field>: text }))` */
  function WithField(f: FormData, field: Field, text: string): (g: FormData)
    ensures g.accountType == f.accountType
  {
    match field
    case Name => f.(name := text)
    case Username => f.(username := text)
    case Email => f.(email := text)
    case Password => f.(password := text)
    case ConfirmPassword => f.(confirmPassword := text)
    case Bio => f.(bio := text)
  }

  /** The fields `registerUser` reads from the form. */
  function Registration(f: FormData): AuthService.Registration {
    AuthService.Registration(f.name, f.username, f.accountType, f.bio)
  }

  class RegisterForm {
    var formData: FormData
    var loading: bool

    /** Only the two type buttons set the type. */
    ghost predicate Valid()
      reads this
    {
      formData.accountType in {"normal", "cafe_owner"}
    }

    constructor ()
      ensures Valid() && formData == EmptyForm && !loading
    {
      formData := EmptyForm;
      loading := false;
    }

    method Edit(field: Field, text: string)
      modifies this
      ensures formData == WithField(old(formData), field, text) && loading == old(loading)
      ensures old(Valid()) ==> Valid()
    {
      formData := WithField(formData, field, text);
    }

    /** The "Usuario" and "Propietario de Café" buttons. */
    method ChooseType(owner: bool)
      modifies this
      ensures formData == old(formData).(accountType := if owner then "cafe_owner" else "normal")
      ensures loading == old(loading)
      ensures Valid()
    {
      formData := formData.(accountType := if owner then "cafe_owner" else "normal");
    }

    /** `handleRegister()`; `created`, `profileError` and `writeError` are the
        identity provider's and the database's answers to `registerUser`. */
    method HandleRegister(db: Backend.Store, created: Result<string>, profileError: Option<string>,
                          writeError: Option<string>, now: Timestamp)
      returns (outcome: RegisterOutcome)
      requires Valid()
      modifies this, db
      ensures Valid() && formData == old(formData)
      ensures db.cafes == old(db.cafes) && db.ratings == old(db.ratings)
      ensures Validate(formData).Some? ==>
        outcome == Invalid(Validate(formData).value) && db.users == old(db.users) && loading == old(loading)
      ensures Validate(formData).None? ==> !loading
      ensures Validate(formData).None? && created.Success? && profileError.None? && writeError.None? ==>
        && outcome == Registered(AuthService.RegisteredUserDoc(created.value, formData.email, Registration(formData), now))
        && db.users == old(db.users)[created.value := outcome.user]
      ensures Validate(formData).None? && !(created.Success? && profileError.None? && writeError.None?) ==>
        outcome.Failed? && db.users == old(db.users)
      ensures outcome.Registered? ==> outcome.user.accountType == formData.accountType
    {
      var check := Validate(formData);
      if check.Some? {
        return Invalid(check.value);
      }
      loading := true;
      var result := AuthService.RegisterUser(db, formData.email, Registration(formData), created, profileError, writeError, now);
      if result.Success? {
        outcome := Registered(result.value);
      } else {
        outcome := Failed(result.error);
      }
      loading := false;
    }
  }
}
