/**
 * The freelancer sign-up / sign-in form (src/components/AuthModal.tsx):
 * the validator that builds a field-to-error map, the input handler that
 * clears a field's error, and the submit that builds the user record.
 * The mode ('signin' | 'signup') is fixed for one form; the 1.5 s delay
 * before the record is built is the split between `HandleSubmit` and
 * `FinishSubmit`, and the browser's storage is a field of the form.
 */
module Auth {
  import opened Wrappers
  import opened Text
  import Portfolio

  datatype Mode = SignIn | SignUp

  datatype Form = Form(email: string, password: string, confirmPassword: string,
                       fullName: string, phone: string, category: string, location: string)

  /** The form's inputs, by their `name` attribute. */
  datatype FormField = Email | Password | ConfirmPassword | FullName | Phone | Category | Location

  /** The keys of the error record: one per input, and `general` for a failed submit. */
  datatype ErrorKey = On(field: FormField) | General

  datatype ErrorMessage =
    | EmailRequired
    | EmailInvalid
    | PasswordRequired
    | PasswordTooShort
    | FullNameRequired
    | PhoneRequired
    | CategoryRequired
    | LocationRequired
    | PasswordsDiffer
    | AuthenticationFailed

  /** The text shown for each error. */
  function MessageText(m: ErrorMessage): (s: string)
    ensures s != ""
  {
    match m
    case EmailRequired => "Email is required"
    case EmailInvalid => "Email is invalid"
    case PasswordRequired => "Password is required"
    case PasswordTooShort => "Password must be at least 6 characters"
    case FullNameRequired => "Full name is required"
    case PhoneRequired => "Phone number is required"
    case CategoryRequired => "Service category is required"
    case LocationRequired => "Location is required"
    case PasswordsDiffer => "Passwords do not match"
    case AuthenticationFailed => "Authentication failed. Please try again."
  }

  function EmptyForm(): Form {
    Form("", "", "", "", "", "", "")
  }

  function FieldValue(f: Form, name: FormField): string {
    match name
    case Email => f.email
    case Password => f.password
    case ConfirmPassword => f.confirmPassword
    case FullName => f.fullName
    case Phone => f.phone
    case Category => f.category
    case Location => f.location
  }

  /** `{ ...prev, [name]: value }`. */
  function SetField(f: Form, name: FormField, value: string): (r: Form)
    ensures forall k :: FieldValue(r, k) == if k == name then value else FieldValue(f, k)
  {
    match name
    case Email => f.(email := value)
    case Password => f.(password := value)
    case ConfirmPassword => f.(confirmPassword := value)
    case FullName => f.(fullName := value)
    case Phone => f.(phone := value)
    case Category => f.(category := value)
    case Location => f.(location := value)
  }

  /**
   * Some substring of `s` matches `\S+@\S+\.\S+`: an '@' with a non-blank
   * character before it, then a '.' after at least one more non-blank, with
   * only non-blanks between the two, and a non-blank after the '.'.
   * (`\S` is any character JavaScript does not count as whitespace.)
   */
  predicate EmailLike(s: string) {
    exists at, dot :: 1 <= at && at + 1 < dot && dot + 1 < |s| && EmailShapeAt(s, at, dot)
  }

  predicate EmailShapeAt(s: string, at: int, dot: int)
    requires 1 <= at && at + 1 < dot && dot + 1 < |s|
  {
    && s[at] == '@' && s[dot] == '.'
    && !IsJsWhitespace(s[at - 1]) && !IsJsWhitespace(s[dot + 1])
    && forall k :: at < k < dot ==> !IsJsWhitespace(s[k])
  }

  /** `newErrors[field] = text` when the check fails, otherwise the record as it was. */
  function Flag(e: map<ErrorKey, string>, fails: bool, field: FormField, m: ErrorMessage): map<ErrorKey, string> {
    if fails then e[On(field) := MessageText(m)] else e
  }

  function EmailErrors(e: map<ErrorKey, string>, email: string): map<ErrorKey, string> {
    if email == "" then e[On(Email) := MessageText(EmailRequired)]
    else Flag(e, !EmailLike(email), Email, EmailInvalid)
  }

  function PasswordErrors(e: map<ErrorKey, string>, password: string): map<ErrorKey, string> {
    if password == "" then e[On(Password) := MessageText(PasswordRequired)]
    else Flag(e, |password| < 6, Password, PasswordTooShort)
  }

  /** The checks only a sign-up makes, in the order they are made. */
  function SignUpErrors(e: map<ErrorKey, string>, f: Form): map<ErrorKey, string> {
    var e := Flag(e, f.fullName == "", FullName, FullNameRequired);
    var e := Flag(e, f.phone == "", Phone, PhoneRequired);
    var e := Flag(e, f.category == "", Category, CategoryRequired);
    var e := Flag(e, f.location == "", Location, LocationRequired);
    Flag(e, f.password != f.confirmPassword, ConfirmPassword, PasswordsDiffer)
  }

  /** `validateForm`'s error record (the form is valid when it has no keys). */
  function ValidateForm(f: Form, mode: Mode): map<ErrorKey, string> {
    var e := PasswordErrors(EmailErrors(map[], f.email), f.password);
    if mode == SignUp then SignUpErrors(e, f) else e
  }

  /** What an acceptable form is, stated field by field. */
  predicate Acceptable(f: Form, mode: Mode) {
    && f.email != "" && EmailLike(f.email)
    && |f.password| >= 6
    && (mode == SignUp ==>
          f.fullName != "" && f.phone != "" && f.category != "" && f.location != ""
          && f.password == f.confirmPassword)
  }

  /** The email and password checks, which both modes make. */
  lemma CredentialErrorsKeys(email: string, password: string)
    ensures var e := PasswordErrors(EmailErrors(map[], email), password);
      && e.Keys <= {On(Email), On(Password)}
      && (On(Email) in e <==> email == "" || !EmailLike(email))
      && (email == "" ==> e[On(Email)] == MessageText(EmailRequired))
      && (email != "" && !EmailLike(email) ==> e[On(Email)] == MessageText(EmailInvalid))
      && (On(Password) in e <==> |password| < 6)
      && (password == "" ==> e[On(Password)] == MessageText(PasswordRequired))
      && (0 < |password| < 6 ==> e[On(Password)] == MessageText(PasswordTooShort))
  {
  }

  lemma SignUpErrorsKeys(e: map<ErrorKey, string>, f: Form)
    ensures var r := SignUpErrors(e, f);
      && (forall k :: (k in e && k !in {On(FullName), On(Phone), On(Category), On(Location), On(ConfirmPassword)})
                        ==> k in r && r[k] == e[k])
      && (forall k :: k in r && k !in e ==> k in {On(FullName), On(Phone), On(Category), On(Location), On(ConfirmPassword)})
      && (On(FullName) in r <==> On(FullName) in e || f.fullName == "")
      && (On(Phone) in r <==> On(Phone) in e || f.phone == "")
      && (On(Category) in r <==> On(Category) in e || f.category == "")
      && (On(Location) in r <==> On(Location) in e || f.location == "")
      && (On(ConfirmPassword) in r <==> On(ConfirmPassword) in e || f.password != f.confirmPassword)
      && (f.fullName == "" ==> r[On(FullName)] == MessageText(FullNameRequired))
      && (f.phone == "" ==> r[On(Phone)] == MessageText(PhoneRequired))
      && (f.category == "" ==> r[On(Category)] == MessageText(CategoryRequired))
      && (f.location == "" ==> r[On(Location)] == MessageText(LocationRequired))
      && (f.password != f.confirmPassword ==> r[On(ConfirmPassword)] == MessageText(PasswordsDiffer))
  {
  }

  /** Which keys the error record has and what each says, field by field. */
  lemma ValidationErrors(f: Form, mode: Mode)
    ensures var e := ValidateForm(f, mode);
      && (On(Email) in e <==> f.email == "" || !EmailLike(f.email))
      && (f.email == "" ==> e[On(Email)] == MessageText(EmailRequired))
      && (f.email != "" && !EmailLike(f.email) ==> e[On(Email)] == MessageText(EmailInvalid))
      && (On(Password) in e <==> |f.password| < 6)
      && (f.password == "" ==> e[On(Password)] == MessageText(PasswordRequired))
      && (0 < |f.password| < 6 ==> e[On(Password)] == MessageText(PasswordTooShort))
      && (On(FullName) in e <==> mode == SignUp && f.fullName == "")
      && (On(Phone) in e <==> mode == SignUp && f.phone == "")
      && (On(Category) in e <==> mode == SignUp && f.category == "")
      && (On(Location) in e <==> mode == SignUp && f.location == "")
      && (On(ConfirmPassword) in e <==> mode == SignUp && f.password != f.confirmPassword)
      && (On(FullName) in e ==> e[On(FullName)] == MessageText(FullNameRequired))
      && (On(Phone) in e ==> e[On(Phone)] == MessageText(PhoneRequired))
      && (On(Category) in e ==> e[On(Category)] == MessageText(CategoryRequired))
      && (On(Location) in e ==> e[On(Location)] == MessageText(LocationRequired))
      && (On(ConfirmPassword) in e ==> e[On(ConfirmPassword)] == MessageText(PasswordsDiffer))
      && General !in e
  {
    CredentialErrorsKeys(f.email, f.password);
    SignUpErrorsKeys(PasswordErrors(EmailErrors(map[], f.email), f.password), f);
  }

  /** The form is valid — no error keys — exactly when it is acceptable. */
  lemma ValidIffAcceptable(f: Form, mode: Mode)
    ensures ValidateForm(f, mode) == map[] <==> Acceptable(f, mode)
  {
    ValidationErrors(f, mode);
    var e := ValidateForm(f, mode);
    if Acceptable(f, mode) {
      forall k
        ensures k !in e
      {
        match k
        case General =>
        case On(field) =>
          match field
          case Email =>
          case Password =>
          case ConfirmPassword =>
          case FullName =>
          case Phone =>
          case Category =>
          case Location =>
      }
      assert e.Keys == {};
    } else {
      if f.email == "" || !EmailLike(f.email) {
        assert On(Email) in e;
      } else if |f.password| < 6 {
        assert On(Password) in e;
      } else if f.fullName == "" {
        assert On(FullName) in e;
      } else if f.phone == "" {
        assert On(Phone) in e;
      } else if f.category == "" {
        assert On(Category) in e;
      } else if f.location == "" {
        assert On(Location) in e;
      } else {
        assert On(ConfirmPassword) in e;
      }
    }
  }

  /** Signing in checks the email and the password only, and nothing else of the form matters. */
  lemma SignInChecksCredentialsOnly(f: Form, g: Form)
    requires f.email == g.email && f.password == g.password
    ensures ValidateForm(f, SignIn).Keys <= {On(Email), On(Password)}
    ensures ValidateForm(f, SignIn) == ValidateForm(g, SignIn)
  {
    ValidationErrors(f, SignIn);
  }

  /** A match may sit anywhere in the text: text around an email-like string keeps it email-like. */
  lemma EmailLikeInContext(s: string, before: string, after: string)
    requires EmailLike(s)
    ensures EmailLike(before + s + after)
  {
    var at, dot :| 1 <= at && at + 1 < dot && dot + 1 < |s| && EmailShapeAt(s, at, dot);
    var t := before + s + after;
    var n := |before|;
    assert forall k :: 0 <= k < |s| ==> t[n + k] == s[k];
    assert EmailShapeAt(t, n + at, n + dot) by {
      forall k | n + at < k < n + dot
        ensures !IsJsWhitespace(t[k])
      {
        assert t[k] == s[k - n];
      }
    }
  }

  /** An email-like string holds an '@' and a '.', and has at least five characters. */
  lemma EmailLikeShape(s: string)
    requires EmailLike(s)
    ensures '@' in s && '.' in s && |s| >= 5
  {
    var at, dot :| 1 <= at && at + 1 < dot && dot + 1 < |s| && EmailShapeAt(s, at, dot);
    assert s[at] in s && s[dot] in s;
  }

  /** "a@b.c" is the shortest kind of email the check accepts. */
  lemma ShortestEmail(s: string)
    requires s == "a@b.c"
    ensures EmailLike(s)
  {
    assert EmailShapeAt(s, 1, 3);
  }

  /** A blank between the '@' and the '.' breaks the match. */
  lemma BlankAfterAt(s: string)
    requires s == "a@ b.c"
    ensures !EmailLike(s)
  {
    forall at, dot | 1 <= at && at + 1 < dot && dot + 1 < |s|
      ensures !EmailShapeAt(s, at, dot)
    {
      if s[at] == '@' {
        assert at == 1;
        assert !(at < 2 < dot) || IsJsWhitespace(s[2]);
      }
    }
  }

  /** The record `handleSubmit` hands to `onSuccess`, with the rating in tenths. */
  datatype User = User(id: int, email: string, fullName: string, phone: string, category: string,
                       location: string, ratingTenths: int, completedJobs: int, earnings: int,
                       portfolio: seq<Portfolio.Item>)

  /**
   * The user built from the form: a new sign-up starts from zero, a sign-in
   * shows the demo account's 4.8 rating, 89 jobs and 45600 earnings, and both
   * start with an empty portfolio.
   */
  function UserRecord(f: Form, mode: Mode, now: int): (u: User)
    ensures u.id == now && u.email == f.email && u.fullName == f.fullName && u.phone == f.phone
    ensures u.category == f.category && u.location == f.location && u.portfolio == []
    ensures mode == SignUp ==> u.ratingTenths == 0 && u.completedJobs == 0 && u.earnings == 0
    ensures mode == SignIn ==> u.ratingTenths == 48 && u.completedJobs == 89 && u.earnings == 45600
  {
    var signUp := mode == SignUp;
    User(now, f.email, f.fullName, f.phone, f.category, f.location,
         if signUp then 0 else 48, if signUp then 0 else 89, if signUp then 0 else 45600, [])
  }

  /** The modal's state: the form, its errors, the loading flag, and the stored user. */
  class AuthForm {
    const mode: Mode
    var formData: Form
    var errors: map<ErrorKey, string>
    var isLoading: bool
    /**
     * The form as it was when the last accepted submit fired: the closure
     * awaiting the delay reads that render's `formData`, whatever is typed
     * into the still-enabled inputs meanwhile.
     */
    var submitted: Form
    /** The browser's `freelancerUser` entry. */
    var storedUser: Option<User>

    constructor (mode: Mode, storedUser: Option<User>)
      ensures this.mode == mode && formData == EmptyForm() && errors == map[] && !isLoading
      ensures this.storedUser == storedUser && submitted == EmptyForm()
    {
      this.mode := mode;
      formData := EmptyForm();
      submitted := EmptyForm();
      errors := map[];
      isLoading := false;
      this.storedUser := storedUser;
    }

    /**
     * `handleInputChange`: only the named field takes the value, and only
     * that field's error, when it has one, is blanked (the key stays).
     */
    method HandleInputChange(name: FormField, value: string)
      modifies this
      ensures forall k :: FieldValue(formData, k) == if k == name then value else FieldValue(old(formData), k)
      ensures errors == if On(name) in old(errors) then old(errors)[On(name) := ""] else old(errors)
      ensures isLoading == old(isLoading) && storedUser == old(storedUser) && submitted == old(submitted)
    {
      formData := SetField(formData, name, value);
      if On(name) in errors && errors[On(name)] != "" {
        errors := errors[On(name) := ""];
      }
    }

    /**
     * The first half of `handleSubmit`: record the validator's errors; an
     * invalid form stops there, a valid one turns the loading flag on and
     * is the form the second half builds the user from.
     */
    method HandleSubmit() returns (proceed: bool)
      modifies this
      ensures errors == ValidateForm(formData, mode)
      ensures proceed <==> Acceptable(formData, mode)
      ensures proceed ==> isLoading && submitted == formData
      ensures !proceed ==> isLoading == old(isLoading) && submitted == old(submitted)
      ensures formData == old(formData) && storedUser == old(storedUser)
    {
      errors := ValidateForm(formData, mode);
      ValidIffAcceptable(formData, mode);
      proceed := errors == map[];
      if proceed {
        isLoading := true;
        submitted := formData;
      }
    }

    /**
     * The second half, after the delay: build the user from the submitted
     * form (not from what the inputs hold now), store it and hand it on;
     * when storing fails (`stored` false), only the general error is
     * left. Either way loading ends.
     */
    method FinishSubmit(now: int, stored: bool) returns (user: Option<User>)
      modifies this
      ensures stored ==> user == Some(UserRecord(submitted, mode, now)) && storedUser == user
      ensures stored ==> errors == old(errors)
      ensures !stored ==> user == None && storedUser == old(storedUser)
      ensures !stored ==> errors == map[General := MessageText(AuthenticationFailed)]
      ensures !isLoading && formData == old(formData) && submitted == old(submitted)
    {
      var userData := UserRecord(submitted, mode, now);
      if stored {
        storedUser := Some(userData);
        user := Some(userData);
      } else {
        errors := map[General := MessageText(AuthenticationFailed)];
        user := None;
      }
      isLoading := false;
    }
  }
}
