/**
 * The registration form: field-by-field validation into an error dictionary, the
 * "+91" prefix kept on the mobile field while typing, and the reading of the
 * server's reply.
 */
module Register {
  import opened Wrappers
  import opened JsText
  import opened Forms

  datatype FormData = FormData(name: string, email: string, password: string, gender: string, mobile: string)

  datatype RegisterField = Name | Email | Password | Gender | Mobile

  /** The body of `POST /api/addUser`. */
  datatype NewUser = NewUser(userName: string, userEmail: string, password: string, userGender: string, userMobile: string)

  /** The reply: a transport error, or a body with a `status` (None when it is not a number) and a `message` ("" when absent). */
  datatype Reply = NetworkError | Replied(status: Option<int>, message: string)

  const NameRequired := "Name is required."
  const NameHasNumbers := "Name cannot contain numbers."
  const EmailRequired := "Email is required."
  const EmailInvalid := "Enter a valid email address."
  const MobileRequired := "Mobile number is required."
  const MobileFormat := "Mobile number must be in the format +911234567890."
  const PasswordRequired := "Password is required."
  const PasswordShort := "Password must be at least 6 characters."
  const Registered := "\U{1F389} Registration successful! Redirecting..."
  const RegisterFailed := "\U{274C} Error registering user."
  const RegisterError := "\U{274C} An error occurred during registration."
  /** The page a successful registration moves on to (three seconds later). */
  const LoginRoute := "/login"

  /** `[a-zA-Z0-9._-]` */
  predicate LocalChar(c: char) { IsAsciiLetter(c) || IsDigit(c) || c == '.' || c == '_' || c == '-' }

  /** `[a-zA-Z0-9.-]` */
  predicate DomainChar(c: char) { IsAsciiLetter(c) || IsDigit(c) || c == '.' || c == '-' }

  predicate AllLocal(s: string) { forall i :: 0 <= i < |s| ==> LocalChar(s[i]) }

  predicate AllDomain(s: string) { forall i :: 0 <= i < |s| ==> DomainChar(s[i]) }

  predicate AllLetters(s: string) { forall i :: 0 <= i < |s| ==> IsAsciiLetter(s[i]) }

  /** `s` splits at `at` and `dot` into `local "@" domain "." tld` as the pattern demands. */
  predicate EmailParts(s: string, at: int, dot: int) {
    && 0 < at && at + 1 < dot < |s|
    && s[at] == '@' && s[dot] == '.'
    && AllLocal(s[..at]) && AllDomain(s[at + 1..dot])
    && 2 <= |s| - dot - 1 <= 6 && AllLetters(s[dot + 1..])
  }

  /** `/^[a-zA-Z0-9._-]+@[a-zA-Z0-9.-]+\.[a-zA-Z]{2,6}$/`, read as the language it denotes. */
  ghost predicate EmailShape(s: string) {
    exists at, dot :: EmailParts(s, at, dot)
  }

  /** The pattern test: the only possible `@` is the first one, and the dot before the tld is the last one. */
  predicate EmailMatches(s: string) {
    EmailParts(s, IndexOf(s, '@'), LastIndexOf(s, '.'))
  }

  /** The test accepts exactly the addresses of the pattern's language. */
  lemma EmailMatchesIff(s: string)
    ensures EmailMatches(s) <==> EmailShape(s)
  {
    if EmailShape(s) {
      var at, dot :| EmailParts(s, at, dot);
      assert forall i :: 0 <= i < at ==> s[..at][i] != '@';
      IndexOfAt(s, '@', at);
      var tld := s[dot + 1..];
      assert forall i :: 0 <= i < |tld| ==> tld[i] != '.';
      LastIndexOfAt(s, '.', dot);
    }
  }

  /** `/^\+91\d{10}$/` */
  predicate IsIndianMobile(m: string) { |m| == 13 && StartsWith(m, "+91") && AllDigits(m[3..]) }

  function NameError(name: string): Option<string> {
    if IsBlank(name) then Some(NameRequired)
    else if HasDigit(name) then Some(NameHasNumbers)
    else None
  }

  function EmailError(email: string): Option<string> {
    if IsBlank(email) then Some(EmailRequired)
    else if !EmailMatches(email) then Some(EmailInvalid)
    else None
  }

  function MobileError(mobile: string): Option<string> {
    if IsBlank(mobile) then Some(MobileRequired)
    else if !IsIndianMobile(mobile) then Some(MobileFormat)
    else None
  }

  function PasswordError(password: string): Option<string> {
    if IsBlank(password) then Some(PasswordRequired)
    else if Utf16Length(password) < 6 then Some(PasswordShort)
    else None
  }

  /** The message `validateForm` records for a field, if any; gender is never checked. */
  function FieldError(d: FormData, f: RegisterField): Option<string> {
    Pick(NameError(d.name), EmailError(d.email), MobileError(d.mobile), PasswordError(d.password), f)
  }

  /** The message among the four checked fields' messages that belongs to `f`. */
  function Pick(n: Option<string>, e: Option<string>, m: Option<string>, p: Option<string>, f: RegisterField): Option<string> {
    match f
    case Name => n
    case Email => e
    case Password => p
    case Gender => None
    case Mobile => m
  }

  /** The dictionary `validateForm` builds from the four fields' messages, in its order. */
  function ErrorsOf(n: Option<string>, e: Option<string>, m: Option<string>, p: Option<string>): map<RegisterField, string> {
    WithError(WithError(WithError(WithError(map[], Name, n), Email, e), Mobile, m), Password, p)
  }

  /** Each field's entry in the dictionary is its own message, and nothing else is in it. */
  lemma ErrorsOfRecords(n: Option<string>, e: Option<string>, m: Option<string>, p: Option<string>, f: RegisterField)
    ensures f in ErrorsOf(n, e, m, p) <==> Pick(n, e, m, p, f).Some?
    ensures f in ErrorsOf(n, e, m, p) ==> ErrorsOf(n, e, m, p)[f] == Pick(n, e, m, p, f).value
  {
  }

  /** A name is accepted exactly when it has a non-space character and no digit. */
  lemma NameAcceptedIff(name: string)
    ensures NameError(name) == None <==> !IsBlank(name) && !HasDigit(name)
    ensures NameError(name) == Some(NameRequired) <==> IsBlank(name)
  {
  }

  /** An email is accepted exactly when it is in the pattern's language (such an address is never blank). */
  lemma EmailAcceptedIff(email: string)
    ensures EmailError(email) == None <==> EmailShape(email)
  {
    EmailMatchesIff(email);
    if EmailMatches(email) {
      MatchedEmailNotBlank(email);
    }
  }

  /** An address the pattern accepts starts with a local-part character, so it is not blank. */
  lemma MatchedEmailNotBlank(email: string)
    requires EmailMatches(email)
    ensures !IsBlank(email)
  {
    assert email[..IndexOf(email, '@')][0] == email[0];
  }

  /** A mobile is accepted exactly when it is "+91" and ten digits. */
  lemma MobileAcceptedIff(mobile: string)
    ensures MobileError(mobile) == None <==> IsIndianMobile(mobile)
  {
    if IsIndianMobile(mobile) {
      assert mobile[0] == "+91"[0];
    }
  }

  /** The password is measured untrimmed, in UTF-16 code units: six units of which one is not white space pass. */
  lemma PasswordAcceptedIff(password: string)
    ensures PasswordError(password) == None <==> !IsBlank(password) && Utf16Length(password) >= 6
    ensures InBmp(password) ==> (PasswordError(password) == None <==> !IsBlank(password) && |password| >= 6)
  {
    if InBmp(password) {
      BmpLength(password);
    }
  }

  /** Five characters pass when one of them lies above U+FFFF, since `.length` counts it twice. */
  lemma AstralPasswordAccepted()
    ensures |"abcd\U{1F600}"| == 5
    ensures PasswordError("abcd\U{1F600}") == None
  {
    var p := "abcd\U{1F600}";
    assert !IsJsSpace(p[0]);
    assert p[..4] == "abcd" && p == "abcd" + ['\U{1F600}'];
    Utf16LengthAppend("abcd", ['\U{1F600}']);
    BmpLength("abcd");
  }

  /** The form is valid exactly when every checked field is accepted. */
  lemma FormValidIff(d: FormData)
    ensures NoErrors(d) <==>
              (!IsBlank(d.name) && !HasDigit(d.name) && EmailShape(d.email)
               && IsIndianMobile(d.mobile) && !IsBlank(d.password) && Utf16Length(d.password) >= 6)
  {
    FieldsValidIff(d);
    NameAcceptedIff(d.name);
    EmailAcceptedIff(d.email);
    MobileAcceptedIff(d.mobile);
    PasswordAcceptedIff(d.password);
  }

  /** The form passes `validateForm`: no field has a message. */
  predicate NoErrors(d: FormData) {
    forall f :: FieldError(d, f).None?
  }

  /** No field has an error exactly when none of the four checked fields has one. */
  lemma FieldsValidIff(d: FormData)
    ensures NoErrors(d) <==>
              (NameError(d.name).None? && EmailError(d.email).None?
               && MobileError(d.mobile).None? && PasswordError(d.password).None?)
  {
    var n, e, m, p := NameError(d.name), EmailError(d.email), MobileError(d.mobile), PasswordError(d.password);
    PickAllNone(n, e, m, p);
    assert forall f :: FieldError(d, f) == Pick(n, e, m, p, f);
  }

  /** Every field's pick is empty exactly when each of the four messages is. */
  lemma PickAllNone(n: Option<string>, e: Option<string>, m: Option<string>, p: Option<string>)
    ensures (forall f :: Pick(n, e, m, p, f).None?) <==> n.None? && e.None? && m.None? && p.None?
  {
    if !(n.None? && e.None? && m.None? && p.None?) {
      assert Pick(n, e, m, p, Name).Some? || Pick(n, e, m, p, Email).Some?
             || Pick(n, e, m, p, Mobile).Some? || Pick(n, e, m, p, Password).Some?;
    }
  }

  /** The dictionary is empty exactly when none of the four messages is present. */
  lemma ErrorsOfEmptyIff(n: Option<string>, e: Option<string>, m: Option<string>, p: Option<string>)
    ensures ErrorsOf(n, e, m, p) == map[] <==> n.None? && e.None? && m.None? && p.None?
  {
    if n.Some? || e.Some? || m.Some? || p.Some? {
      ErrorsOfRecords(n, e, m, p, Name);
      ErrorsOfRecords(n, e, m, p, Email);
      ErrorsOfRecords(n, e, m, p, Mobile);
      ErrorsOfRecords(n, e, m, p, Password);
    }
  }

  /** The dictionary `validateForm` stores for the form `d`. */
  function ValidationErrors(d: FormData): map<RegisterField, string> {
    ErrorsOf(NameError(d.name), EmailError(d.email), MobileError(d.mobile), PasswordError(d.password))
  }

  /** Each field maps to exactly its own message; the dictionary is empty exactly when the form passes. */
  lemma ValidationErrorsSpec(d: FormData, f: RegisterField)
    ensures Records(ValidationErrors(d), d, f)
    ensures ValidationErrors(d) == map[] <==> NoErrors(d)
  {
    var n, e, m, p := NameError(d.name), EmailError(d.email), MobileError(d.mobile), PasswordError(d.password);
    ErrorsOfRecords(n, e, m, p, f);
    ErrorsOfEmptyIff(n, e, m, p);
    FieldsValidIff(d);
  }

  /** `m` records for field `f` exactly the message `validateForm` gives it. */
  predicate Records(m: map<RegisterField, string>, d: FormData, f: RegisterField) {
    (f in m <==> FieldError(d, f).Some?) && (f in m ==> m[f] == FieldError(d, f).value)
  }

  /** The user fields sent to the server, taken verbatim from the form. */
  function Payload(d: FormData): (u: NewUser)
    ensures u.userName == d.name && u.userEmail == d.email && u.password == d.password
    ensures u.userGender == d.gender && u.userMobile == d.mobile
  {
    NewUser(d.name, d.email, d.password, d.gender, d.mobile)
  }

  /** Registration counts as successful only on a reply whose status is exactly 1. */
  predicate Succeeded(reply: Reply) { reply.Replied? && reply.status == Some(1) }

  /** The banner after a send: success text, the server's message or a default, or the transport error. */
  function ReplyMessage(reply: Reply): (msg: string)
    ensures Succeeded(reply) ==> msg == Registered
    ensures reply.NetworkError? ==> msg == RegisterError
    ensures reply.Replied? && !Succeeded(reply) ==> msg == (if reply.message != "" then reply.message else RegisterFailed)
    ensures msg != ""
  {
    match reply
    case NetworkError => RegisterError
    case Replied(status, message) =>
      if status == Some(1) then Registered
      else if message != "" then message else RegisterFailed
  }

  class RegisterPage {
    var formData: FormData
    var errors: map<RegisterField, string>
    var serverMessage: string
    var isSuccess: bool

    /** The mobile field always carries the country code. */
    ghost predicate Valid()
      reads this
    {
      StartsWith(formData.mobile, "+91")
    }

    constructor ()
      ensures Valid()
      ensures formData == FormData("", "", "", "", "+91") && errors == map[] && serverMessage == "" && !isSuccess
    {
      formData := FormData("", "", "", "", "+91");
      errors, serverMessage, isSuccess := map[], "", false;
    }

    /** `handleChange`: a mobile value without the "+91" prefix is ignored; other fields are copied. */
    method HandleChange(f: RegisterField, value: string)
      requires Valid()
      modifies this`formData
      ensures Valid()
      ensures f == Mobile && !StartsWith(value, "+91") ==> formData == old(formData)
      ensures f == Mobile && StartsWith(value, "+91") ==> formData == old(formData).(mobile := value)
      ensures f == Name ==> formData == old(formData).(name := value)
      ensures f == Email ==> formData == old(formData).(email := value)
      ensures f == Password ==> formData == old(formData).(password := value)
      ensures f == Gender ==> formData == old(formData).(gender := value)
    {
      match f {
        case Mobile =>
          if StartsWith(value, "+91") {
            formData := formData.(mobile := value);
          }
        case Name => formData := formData.(name := value);
        case Email => formData := formData.(email := value);
        case Password => formData := formData.(password := value);
        case Gender => formData := formData.(gender := value);
      }
    }

    /** `validateForm`: one message per failing field, stored as the errors; valid when there are none. */
    method ValidateForm() returns (valid: bool)
      modifies this`errors
      ensures errors == ValidationErrors(formData)
      ensures valid <==> errors == map[]
    {
      var newErrors: map<RegisterField, string> := map[];
      newErrors := WithError(newErrors, Name, NameError(formData.name));
      newErrors := WithError(newErrors, Email, EmailError(formData.email));
      newErrors := WithError(newErrors, Mobile, MobileError(formData.mobile));
      newErrors := WithError(newErrors, Password, PasswordError(formData.password));
      errors := newErrors;
      valid := newErrors == map[];
    }

    /** `handleSubmit`: the form is sent only when `validateForm` passes; a success leads to the login page. */
    method HandleSubmit(reply: Reply) returns (sent: Option<NewUser>, navigateTo: Option<string>)
      requires Valid()
      modifies this`errors, this`serverMessage, this`isSuccess
      ensures Valid()
      ensures errors == ValidationErrors(formData)
      ensures sent.Some? <==> errors == map[]
      ensures sent.None? ==> navigateTo == None && serverMessage == old(serverMessage) && isSuccess == old(isSuccess)
      ensures sent.Some? ==> sent.value == Payload(formData) && isSuccess == navigateTo.Some?
      ensures sent.Some? ==> serverMessage == ReplyMessage(reply) && (navigateTo.Some? <==> Succeeded(reply))
      ensures navigateTo.Some? ==> navigateTo.value == LoginRoute
    {
      var valid := ValidateForm();
      if !valid {
        return None, None;
      }
      sent := Some(Payload(formData));
      var success := ReadReply(reply);
      navigateTo := if success then Some(LoginRoute) else None;
    }

    /** The reply half of `handleSubmit`: status 1 is success, anything else shows a message. */
    method ReadReply(reply: Reply) returns (success: bool)
      modifies this`serverMessage, this`isSuccess
      ensures success == Succeeded(reply) && isSuccess == success
      ensures serverMessage == ReplyMessage(reply)
    {
      match reply {
        case NetworkError =>
          serverMessage, isSuccess := RegisterError, false;
        case Replied(status, message) =>
          if status == Some(1) {
            serverMessage, isSuccess := Registered, true;
          } else {
            serverMessage := if message != "" then message else RegisterFailed;
            isSuccess := false;
          }
      }
      success := isSuccess;
    }
  }
}
