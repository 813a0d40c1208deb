/**
 * `AuthViewModel`: registration and login with their checks in the order the
 * screen sees them, the password-strength and email-shape checks, the admin
 * role derivation, the login error mapping, the role fetch and password reset.
 */
module AuthVm {
  import opened Wrappers
  import opened Records
  import Text
  import Lists

  const SECRET_ADMIN_CODE: string := "CC-ADMIN-2026"
  const ADMIN: string := "admin"
  const STUDENT: string := "student"

  const FILL_ALL_FIELDS: string := "Please fill all required fields in a valid way."
  const INVALID_EMAIL: string := "Enter a valid email address."
  const NO_REGISTERED_UID: string := "Registration failed (no user id)"
  const REGISTRATION_FAILED: string := "Registration failed."
  const PROFILE_SAVE_FAILED: string := "Profile save failed: "
  const UNKNOWN_ERROR: string := "unknown error"
  const NO_LOGIN_UID: string := "Login failed (no user id)."
  const WRONG_PASSWORD: string := "Incorrect password."
  const NO_ACCOUNT: string := "No account found for this email."
  const LOGIN_FAILED: string := "Login failed."
  const RESET_NEEDS_EMAIL: string := "Enter your email to reset password"
  const RESET_SENT: string := "Password reset link sent. Check your email."
  const RESET_FAILED: string := "Failed to send reset email."
  const ROLE_FETCH_FAILED: string := "Failed to fetch user role."

  const ERROR_WRONG_PASSWORD: string := "ERROR_WRONG_PASSWORD"
  const ERROR_INVALID_EMAIL: string := "ERROR_INVALID_EMAIL"

  const MIN_PASSWORD_LENGTH: nat := 8
  const TOO_SHORT: string := "Password must be at least 8 characters."
  const NO_UPPERCASE: string := "Password must include at least one uppercase letter."
  const NO_LOWERCASE: string := "Password must include at least one lowercase letter."
  const NO_NUMBER: string := "Password must include at least one number."
  const NO_SPECIAL: string := "Password must include at least one special character."

  /** `AuthState`; every assignment in the view model replaces all four fields. */
  datatype AuthState = AuthState(loading: bool, error: Option<string>, success: bool, role: Option<string>)

  const DEFAULT: AuthState := AuthState(false, None, false, None)

  function Failing(message: string): AuthState {
    AuthState(false, Some(message), false, None)
  }

  const LOADING: AuthState := AuthState(true, None, false, None)

  datatype Outcome = Outcome(state: AuthState, effects: seq<Effect>)

  function UserPath(uid: string): string {
    "users/" + uid
  }

  // ---------------------------------------------------------------- password

  /**
   * The Unicode character classes of `Char.isUpperCase`, `isLowerCase`,
   * `isDigit` and `isLetterOrDigit`, left uninterpreted. A Kotlin `Char` is a
   * UTF-16 code unit, so they classify code units: each half of a surrogate
   * pair is classified on its own.
   */
  datatype CharClasses = CharClasses(
    isUpperCase: int -> bool,
    isLowerCase: int -> bool,
    isDigit: int -> bool,
    isLetterOrDigit: int -> bool)

  /** `password.any { p(it) }` over the password's UTF-16 code units. */
  ghost predicate Has(s: string, p: int -> bool) {
    exists i :: 0 <= i < |Text.Utf16(s)| && p(Text.Utf16(s)[i])
  }

  /** What the app calls a strong password; `length` counts UTF-16 code units. */
  ghost predicate StrongPassword(cc: CharClasses, password: string) {
    Text.Utf16Length(password) >= MIN_PASSWORD_LENGTH
    && Has(password, cc.isUpperCase)
    && Has(password, cc.isLowerCase)
    && Has(password, cc.isDigit)
    && Has(password, c => !cc.isLetterOrDigit(c))
  }

  /**
   * `validateStrongPassword`: no message exactly for a strong password, and
   * otherwise the message of the first failing check in the order length,
   * uppercase, lowercase, digit, special character.
   */
  function ValidateStrongPassword(cc: CharClasses, password: string): (r: Option<string>)
    ensures r.None? <==> StrongPassword(cc, password)
    ensures Text.Utf16Length(password) < MIN_PASSWORD_LENGTH ==> r == Some(TOO_SHORT)
    ensures Text.Utf16Length(password) >= MIN_PASSWORD_LENGTH && !Has(password, cc.isUpperCase) ==> r == Some(NO_UPPERCASE)
    ensures (Text.Utf16Length(password) >= MIN_PASSWORD_LENGTH && Has(password, cc.isUpperCase)
             && !Has(password, cc.isLowerCase)) ==> r == Some(NO_LOWERCASE)
    ensures (Text.Utf16Length(password) >= MIN_PASSWORD_LENGTH && Has(password, cc.isUpperCase)
             && Has(password, cc.isLowerCase) && !Has(password, cc.isDigit)) ==> r == Some(NO_NUMBER)
    ensures (Text.Utf16Length(password) >= MIN_PASSWORD_LENGTH && Has(password, cc.isUpperCase)
             && Has(password, cc.isLowerCase) && Has(password, cc.isDigit)
             && !Has(password, c => !cc.isLetterOrDigit(c))) ==> r == Some(NO_SPECIAL)
  {
    var units := Text.Utf16(password);
    if |units| < MIN_PASSWORD_LENGTH then Some(TOO_SHORT)
    else if !Lists.Any(units, cc.isUpperCase) then Some(NO_UPPERCASE)
    else if !Lists.Any(units, cc.isLowerCase) then Some(NO_LOWERCASE)
    else if !Lists.Any(units, cc.isDigit) then Some(NO_NUMBER)
    else if !Lists.Any(units, c => !cc.isLetterOrDigit(c)) then Some(NO_SPECIAL)
    else None
  }

  /**
   * A character beyond U+FFFF is two code units: with it, seven characters
   * already meet the minimum length.
   */
  lemma SupplementaryCharacterCountsTwice(cc: CharClasses)
    ensures Text.Utf16Length("\U{1F600}Aa1!xy") == MIN_PASSWORD_LENGTH
    ensures ValidateStrongPassword(cc, "\U{1F600}Aa1!xy") != Some(TOO_SHORT)
  {
  }

  // ------------------------------------------------------------------- email

  /** The characters of `[A-Za-z0-9+_.-]`. */
  predicate IsLocalChar(c: char) {
    ('A' <= c <= 'Z') || ('a' <= c <= 'z') || ('0' <= c <= '9') || c == '+' || c == '_' || c == '.' || c == '-'
  }

  /** The characters of `[A-Za-z0-9.-]`. */
  predicate IsDomainChar(c: char) {
    ('A' <= c <= 'Z') || ('a' <= c <= 'z') || ('0' <= c <= '9') || c == '.' || c == '-'
  }

  ghost predicate LocalPart(s: string) {
    |s| > 0 && forall i :: 0 <= i < |s| ==> IsLocalChar(s[i])
  }

  ghost predicate DomainPart(s: string) {
    |s| > 0 && forall i :: 0 <= i < |s| ==> IsDomainChar(s[i])
  }

  /** The strings `^[A-Za-z0-9+_.-]+@[A-Za-z0-9.-]+$` matches in full. */
  ghost predicate EmailShape(s: string) {
    exists k :: 0 <= k < |s| && s[k] == '@' && LocalPart(s[..k]) && DomainPart(s[k + 1..])
  }

  /** The states of a left-to-right matcher for the email pattern. */
  datatype Scan = Start | InLocal | AfterAt | InDomain | Rejected

  function ScanStep(st: Scan, c: char): Scan {
    match st
    case Start => if IsLocalChar(c) then InLocal else Rejected
    case InLocal => if c == '@' then AfterAt else if IsLocalChar(c) then InLocal else Rejected
    case AfterAt => if IsDomainChar(c) then InDomain else Rejected
    case InDomain => if IsDomainChar(c) then InDomain else Rejected
    case Rejected => Rejected
  }

  /** The matcher's state after reading all of `s`. */
  function ScanAll(s: string): Scan {
    if s == [] then Start else ScanStep(ScanAll(s[..|s| - 1]), s[|s| - 1])
  }

  /** A string of the email shape, less its last character. */
  lemma ShapeSnocSplits(p: string, c: char)
    requires EmailShape(p + [c])
    ensures IsDomainChar(c)
    ensures EmailShape(p) || (|p| > 0 && p[|p| - 1] == '@' && LocalPart(p[..|p| - 1]))
  {
    var s := p + [c];
    var k :| 0 <= k < |s| && s[k] == '@' && LocalPart(s[..k]) && DomainPart(s[k + 1..]);
    assert s[k + 1..][|s| - k - 2] == c;
    assert s[..k] == p[..k];
    if k < |p| - 1 {
      var d := p[k + 1..];
      assert forall i :: 0 <= i < |d| ==> d[i] == s[k + 1..][i];
      assert DomainPart(d);
      assert p[k] == '@';
    }
  }

  /** A domain character extends a string of the email shape. */
  lemma ShapeSnocExtends(p: string, c: char)
    requires IsDomainChar(c) && EmailShape(p)
    ensures EmailShape(p + [c])
  {
    var s := p + [c];
    var k :| 0 <= k < |p| && p[k] == '@' && LocalPart(p[..k]) && DomainPart(p[k + 1..]);
    assert s[..k] == p[..k];
    assert s[k + 1..] == p[k + 1..] + [c];
    assert s[k] == '@';
  }

  /** A domain character after the `@` completes the email shape. */
  lemma ShapeSnocCompletes(p: string, c: char)
    requires IsDomainChar(c) && |p| > 0 && p[|p| - 1] == '@' && LocalPart(p[..|p| - 1])
    ensures EmailShape(p + [c])
  {
    var s := p + [c];
    var k := |p| - 1;
    assert s[..k] == p[..k];
    assert s[k + 1..] == [c];
    assert s[k] == '@';
  }

  /** Appending one character to a string of the email shape. */
  lemma ShapeSnoc(p: string, c: char)
    ensures EmailShape(p + [c]) <==>
              IsDomainChar(c) && (EmailShape(p) || (|p| > 0 && p[|p| - 1] == '@' && LocalPart(p[..|p| - 1])))
  {
    if EmailShape(p + [c]) {
      ShapeSnocSplits(p, c);
    } else if IsDomainChar(c) && EmailShape(p) {
      ShapeSnocExtends(p, c);
    } else if IsDomainChar(c) && |p| > 0 && p[|p| - 1] == '@' && LocalPart(p[..|p| - 1]) {
      ShapeSnocCompletes(p, c);
    }
  }

  /** What each matcher state means about the text read so far. */
  lemma {:induction false} ScanClassifies(s: string)
    ensures ScanAll(s) == Start <==> s == []
    ensures ScanAll(s) == InLocal <==> LocalPart(s)
    ensures ScanAll(s) == AfterAt <==> |s| > 0 && s[|s| - 1] == '@' && LocalPart(s[..|s| - 1])
    ensures ScanAll(s) == InDomain <==> EmailShape(s)
  {
    if s == [] {
      assert !EmailShape(s);
    } else {
      var p, c := s[..|s| - 1], s[|s| - 1];
      assert s == p + [c];
      ScanClassifies(p);
      ShapeSnoc(p, c);
      assert LocalPart(s) <==> (p == [] || LocalPart(p)) && IsLocalChar(c) by {
        if LocalPart(s) {
          assert forall i :: 0 <= i < |p| ==> p[i] == s[i];
          assert IsLocalChar(s[|s| - 1]);
        }
      }
      if ScanAll(p) == AfterAt {
        assert !LocalPart(s) by { assert !IsLocalChar(p[|p| - 1]) && p[|p| - 1] == s[|s| - 2]; }
      }
      if ScanAll(p) == InDomain {
        assert !LocalPart(s) && !LocalPart(p) by {
          var k :| 0 <= k < |p| && p[k] == '@' && LocalPart(p[..k]) && DomainPart(p[k + 1..]);
          assert s[k] == p[k];
        }
      }
    }
  }

  /** `isValidEmail`: a full match of the pattern, read character by character. */
  function IsValidEmail(s: string): (r: bool)
    ensures r <==> EmailShape(s)
  {
    ScanClassifies(s);
    ScanAll(s) == InDomain
  }

  // -------------------------------------------------------------------- role

  /** The role a registration asks for: admin exactly for the secret code, surrounding whitespace ignored. */
  function RoleFor(adminCode: string): (role: string)
    ensures role == ADMIN <==> Text.Trim(adminCode) == SECRET_ADMIN_CODE
    ensures role == STUDENT <==> Text.Trim(adminCode) != SECRET_ADMIN_CODE
  {
    if Text.Trim(adminCode) == SECRET_ADMIN_CODE then ADMIN else STUDENT
  }

  /** The user document a registration writes. */
  function UserPayload(name: string, email: string, role: string, now: int): (p: Payload)
    ensures p.Keys == {Name, Email, Role, CreatedAt}
    ensures p[Name] == Str(name) && p[Email] == Str(email) && p[Role] == Str(role) && p[CreatedAt] == Time(now)
  {
    map[Name := Str(name), Email := Str(email), Role := Str(role), CreatedAt := Time(now)]
  }

  // ---------------------------------------------------------------- register

  /**
   * `register`: blank fields (after trimming name and email), then the email
   * shape, then password strength; only when all pass does loading start and
   * the account get created, with the trimmed email and the password as typed.
   */
  function Register(cc: CharClasses, name: string, email: string, password: string): (o: Outcome)
    ensures Text.IsBlank(name) || Text.IsBlank(email) || Text.IsBlank(password) ==>
      o == Outcome(Failing(FILL_ALL_FIELDS), [])
    ensures (!Text.IsBlank(name) && !Text.IsBlank(email) && !Text.IsBlank(password)
             && !EmailShape(Text.Trim(email))) ==> o == Outcome(Failing(INVALID_EMAIL), [])
    ensures (!Text.IsBlank(name) && !Text.IsBlank(email) && !Text.IsBlank(password)
             && EmailShape(Text.Trim(email)) && !StrongPassword(cc, password)) ==>
      o == Outcome(Failing(ValidateStrongPassword(cc, password).value), [])
    ensures o.effects != [] <==>
      (!Text.IsBlank(name) && !Text.IsBlank(password)
       && EmailShape(Text.Trim(email)) && StrongPassword(cc, password))
    ensures o.effects != [] ==> o == Outcome(LOADING, [CreateAccount(Text.Trim(email), password)])
  {
    var trimmedName := Text.Trim(name);
    var trimmedEmail := Text.Trim(email);
    Text.BlankAfterTrim(name);
    Text.BlankAfterTrim(email);
    if Text.IsBlank(trimmedName) || Text.IsBlank(trimmedEmail) || Text.IsBlank(password) then
      Outcome(Failing(FILL_ALL_FIELDS), [])
    else if !IsValidEmail(trimmedEmail) then Outcome(Failing(INVALID_EMAIL), [])
    else
      var passwordError := ValidateStrongPassword(cc, password);
      if passwordError.Some? then Outcome(Failing(passwordError.value), [])
      else Outcome(LOADING, [CreateAccount(trimmedEmail, password)])
  }

  /**
   * The account was created. The callback sees the role and the trimmed name
   * and email computed before the call; without a user id it fails, otherwise
   * it reports success and writes the user document.
   */
  function OnAccountCreated(name: string, email: string, adminCode: string, uid: Option<string>, now: int): (o: Outcome)
    ensures uid.None? ==> o == Outcome(Failing(NO_REGISTERED_UID), [])
    ensures uid.Some? ==>
      o.state == AuthState(false, None, true, Some(RoleFor(adminCode)))
      && o.effects == [SetDoc(UserPath(uid.value), UserPayload(Text.Trim(name), Text.Trim(email), RoleFor(adminCode), now), false)]
  {
    match uid
    case None => Outcome(Failing(NO_REGISTERED_UID), [])
    case Some(u) =>
      var role := RoleFor(adminCode);
      Outcome(AuthState(false, None, true, Some(role)),
              [SetDoc(UserPath(u), UserPayload(Text.Trim(name), Text.Trim(email), role, now), false)])
  }

  function OnAccountFailed(f: Failure): (r: AuthState)
    ensures r == Failing(f.message.GetOr(REGISTRATION_FAILED))
  {
    Failing(f.message.GetOr(REGISTRATION_FAILED))
  }

  /** Writing the user document failed: still signed up, with the reason shown. */
  function OnProfileSaveFailed(adminCode: string, f: Failure): (r: AuthState)
    ensures r.success && r.role == Some(RoleFor(adminCode)) && !r.loading
    ensures r.error == Some(PROFILE_SAVE_FAILED + f.message.GetOr(UNKNOWN_ERROR))
  {
    AuthState(false, Some(PROFILE_SAVE_FAILED + f.message.GetOr(UNKNOWN_ERROR)), true, Some(RoleFor(adminCode)))
  }

  // ------------------------------------------------------------------- login

  /** `login`: blank fields, then the email shape; otherwise loading and sign-in. */
  function Login(email: string, password: string): (o: Outcome)
    ensures Text.IsBlank(email) || Text.IsBlank(password) ==> o == Outcome(Failing(FILL_ALL_FIELDS), [])
    ensures (!Text.IsBlank(email) && !Text.IsBlank(password) && !EmailShape(Text.Trim(email))) ==>
      o == Outcome(Failing(INVALID_EMAIL), [])
    ensures o.effects != [] <==> !Text.IsBlank(password) && EmailShape(Text.Trim(email))
    ensures o.effects != [] ==> o == Outcome(LOADING, [SignIn(Text.Trim(email), password)])
  {
    var trimmedEmail := Text.Trim(email);
    Text.BlankAfterTrim(email);
    if Text.IsBlank(trimmedEmail) || Text.IsBlank(password) then Outcome(Failing(FILL_ALL_FIELDS), [])
    else if !IsValidEmail(trimmedEmail) then Outcome(Failing(INVALID_EMAIL), [])
    else Outcome(LOADING, [SignIn(trimmedEmail, password)])
  }

  /** `fetchRole`: read the user document, still loading. */
  function FetchRole(uid: string): (o: Outcome)
    ensures o.state.loading && o.effects == [FetchDoc(UserPath(uid))]
  {
    Outcome(LOADING, [FetchDoc(UserPath(uid))])
  }

  /** Signed in: without a user id it fails, otherwise the role is fetched. */
  function OnSignedIn(uid: Option<string>): (o: Outcome)
    ensures uid.None? ==> o == Outcome(Failing(NO_LOGIN_UID), [])
    ensures uid.Some? ==> o == FetchRole(uid.value)
  {
    if uid.None? then Outcome(Failing(NO_LOGIN_UID), []) else FetchRole(uid.value)
  }

  /** The message a failed sign-in shows. */
  function LoginFailureMessage(f: Failure): (m: string)
    ensures f.code == InvalidCredentials(ERROR_WRONG_PASSWORD) ==> m == WRONG_PASSWORD
    ensures f.code == InvalidCredentials(ERROR_INVALID_EMAIL) ==> m == INVALID_EMAIL
    ensures f.code.InvalidUser? ==> m == NO_ACCOUNT
    ensures (f.code.InvalidCredentials? && f.code.errorCode !in {ERROR_WRONG_PASSWORD, ERROR_INVALID_EMAIL})
            || f.code.PermissionDenied? || f.code.NotAuthorized? || f.code.OtherError? ==>
      m == f.message.GetOr(LOGIN_FAILED)
  {
    if f.code == InvalidCredentials(ERROR_WRONG_PASSWORD) then WRONG_PASSWORD
    else if f.code == InvalidCredentials(ERROR_INVALID_EMAIL) then INVALID_EMAIL
    else if f.code.InvalidUser? then NO_ACCOUNT
    else f.message.GetOr(LOGIN_FAILED)
  }

  /** The login failure message is one of the fixed texts or the failure's own. */
  lemma LoginFailureMessageChoices(f: Failure)
    ensures var m := LoginFailureMessage(f);
            m in {WRONG_PASSWORD, INVALID_EMAIL, NO_ACCOUNT, LOGIN_FAILED} || f.message == Some(m)
  {
  }

  function OnSignInFailed(f: Failure): (r: AuthState)
    ensures r == Failing(LoginFailureMessage(f))
  {
    Failing(LoginFailureMessage(f))
  }

  /** The user document arrived: success with its role, "student" when it has none. */
  function OnRoleFetched(d: Doc): (r: AuthState)
    ensures r.success && !r.loading && r.error.None?
    ensures GetString(d, Role).Some? ==> r.role == GetString(d, Role)
    ensures GetString(d, Role).None? ==> r.role == Some(STUDENT)
  {
    AuthState(false, None, true, Some(GetString(d, Role).GetOr(STUDENT)))
  }

  function OnRoleFetchFailed(f: Failure): (r: AuthState)
    ensures r == Failing(f.message.GetOr(ROLE_FETCH_FAILED))
  {
    Failing(f.message.GetOr(ROLE_FETCH_FAILED))
  }

  /** The role stored at registration is the role the next login reports. */
  lemma RegisteredRoleReadsBack(name: string, email: string, adminCode: string, uid: string, now: int)
    ensures var o := OnAccountCreated(name, email, adminCode, Some(uid), now);
            && o.effects[0].SetDoc? && !o.effects[0].merge
            && OnRoleFetched(Doc(uid, o.effects[0].data)).role == o.state.role
            && o.state.role == Some(if Text.Trim(adminCode) == SECRET_ADMIN_CODE then ADMIN else STUDENT)
  {
    var o := OnAccountCreated(name, email, adminCode, Some(uid), now);
    assert GetString(Doc(uid, o.effects[0].data), Role) == Some(RoleFor(adminCode));
  }

  /** `tryRestoreSession`: nothing without a signed-in user, otherwise the role is fetched. */
  function TryRestoreSession(s: AuthState, uid: Option<string>): (o: Outcome)
    ensures uid.None? ==> o == Outcome(s, [])
    ensures uid.Some? ==> o == FetchRole(uid.value)
  {
    if uid.None? then Outcome(s, []) else FetchRole(uid.value)
  }

  // ------------------------------------------------------- reset and logout

  /** `resetPassword`: a blank email fails without a call; otherwise the trimmed email is sent a link. */
  function ResetPassword(email: string): (o: Outcome)
    ensures Text.IsBlank(email) <==> o.effects == []
    ensures Text.IsBlank(email) ==> o.state == Failing(RESET_NEEDS_EMAIL)
    ensures !Text.IsBlank(email) ==> o.state == LOADING && o.effects == [SendPasswordReset(Text.Trim(email))]
    ensures !Text.IsBlank(email) ==> Text.Trim(email) != ""
  {
    if Text.IsBlank(email) then Outcome(Failing(RESET_NEEDS_EMAIL), [])
    else Outcome(LOADING, [SendPasswordReset(Text.Trim(email))])
  }

  /** Both outcomes of the reset request are shown in the error slot. */
  function OnResetDone(c: Completion): (r: AuthState)
    ensures c.Succeeded? ==> r == Failing(RESET_SENT)
    ensures c.Failed? ==> r == Failing(c.failure.message.GetOr(RESET_FAILED))
  {
    match c
    case Succeeded => Failing(RESET_SENT)
    case Failed(f) => Failing(f.message.GetOr(RESET_FAILED))
  }

  function ResetState(): (r: AuthState)
    ensures !r.loading && !r.success && r.error.None? && r.role.None?
  {
    DEFAULT
  }

  /** `logout`: sign out and forget everything. */
  function Logout(): (o: Outcome)
    ensures o.state == ResetState() && o.effects == [SignOut]
  {
    Outcome(DEFAULT, [SignOut])
  }
}
