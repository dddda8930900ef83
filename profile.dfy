/**
 * The profile page: loaded only with a stored user id and token, edited in place,
 * checked field by field in a fixed order (first failure wins), and merged into the
 * shown user record once the server accepts it.
 */
module Profile {
  import opened Wrappers
  import opened JsText
  import opened Session
  import opened Register

  /** The user record the server returns; `id` and `role` stand for the fields a save keeps. */
  datatype UserRecord = UserRecord(id: string, userName: string, userEmail: string,
                                   userMobile: string, userGender: string, role: string)

  /** `userData`, the edit buffer. */
  datatype ProfileData = ProfileData(name: string, email: string, phone: string, gender: string)

  datatype ProfileField = NameField | EmailField | PhoneField | GenderField

  const MissingCredentials := "User ID or Token is missing!"
  const LoadFailed := "Failed to load user data. Please try again."
  const NameMissing := "Name is required"
  const NameAllDigits := "Name cannot contain only digits"
  const PhoneFormat := "Phone number should be in the format +91XXXXXXXXXX"
  const EmailFormat := "Please enter a valid email address"
  const Saved := "Profile updated successfully"
  const SaveFailed := "Failed to update profile. Please try again."

  /** `[^\s@]` */
  predicate PlainChar(c: char) { !IsJsSpace(c) && c != '@' }

  predicate AllPlain(s: string) { forall i :: 0 <= i < |s| ==> PlainChar(s[i]) }

  /** `s` splits at `at` and `dot` into three non-empty plain runs as `^[^\s@]+@[^\s@]+\.[^\s@]+$` demands. */
  predicate ProfileEmailParts(s: string, at: int, dot: int) {
    && 0 < at && at + 1 < dot && dot + 1 < |s|
    && s[at] == '@' && s[dot] == '.'
    && AllPlain(s[..at]) && AllPlain(s[at + 1..dot]) && AllPlain(s[dot + 1..])
  }

  /** The language of the profile's email pattern. */
  ghost predicate ProfileEmailShape(s: string) {
    exists at, dot :: ProfileEmailParts(s, at, dot)
  }

  /**
   * The pattern test: no white space, exactly one `@` with something before it, and a dot
   * after it with at least one character on each side (the runs may themselves hold dots).
   */
  predicate ProfileEmailMatches(s: string) {
    var at := IndexOf(s, '@');
    && at > 0 && (forall i :: 0 <= i < |s| ==> !IsJsSpace(s[i]))
    && (forall i :: at < i < |s| ==> s[i] != '@')
    && exists dot :: at + 1 < dot < |s| - 1 && s[dot] == '.'
  }

  /** The test accepts exactly the addresses of the pattern's language. */
  lemma ProfileEmailMatchesIff(s: string)
    ensures ProfileEmailMatches(s) <==> ProfileEmailShape(s)
  {
    if ProfileEmailMatches(s) {
      var at := IndexOf(s, '@');
      var dot :| at + 1 < dot < |s| - 1 && s[dot] == '.';
      assert forall i :: 0 <= i < at ==> s[..at][i] != '@';
      assert ProfileEmailParts(s, at, dot);
    }
    if ProfileEmailShape(s) {
      var at, dot :| ProfileEmailParts(s, at, dot);
      assert forall i :: 0 <= i < at ==> s[..at][i] == s[i];
      IndexOfAt(s, '@', at);
      forall i | 0 <= i < |s|
        ensures !IsJsSpace(s[i]) && (i > at ==> s[i] != '@')
      {
        if i < at {
          assert s[i] == s[..at][i];
        } else if at < i < dot {
          assert s[i] == s[at + 1..dot][i - at - 1];
        } else if dot < i {
          assert s[i] == s[dot + 1..][i - dot - 1];
        }
      }
    }
  }

  /** `/^\d+$/` */
  predicate OnlyDigits(s: string) { s != [] && AllDigits(s) }

  /** `validateFields`: the first failing check, in the order name, name digits, phone, email; gender is not checked. */
  function ProfileError(d: ProfileData): Option<string> {
    if IsBlank(d.name) then Some(NameMissing)
    else if OnlyDigits(d.name) then Some(NameAllDigits)
    else if !IsIndianMobile(d.phone) then Some(PhoneFormat)
    else if !ProfileEmailMatches(d.email) then Some(EmailFormat)
    else None
  }

  /** The edit is accepted exactly when all four checks pass, whatever the gender. */
  lemma ProfileAcceptedIff(d: ProfileData)
    ensures ProfileError(d) == None <==>
              !IsBlank(d.name) && !OnlyDigits(d.name) && IsIndianMobile(d.phone) && ProfileEmailShape(d.email)
  {
    ProfileEmailMatchesIff(d.email);
  }

  /** A later check's message means every earlier check passed. */
  lemma ProfileErrorPriority(d: ProfileData)
    ensures ProfileError(d) == Some(NameAllDigits) ==> !IsBlank(d.name)
    ensures ProfileError(d) == Some(PhoneFormat) ==> !IsBlank(d.name) && !OnlyDigits(d.name)
    ensures ProfileError(d) == Some(EmailFormat) ==>
              !IsBlank(d.name) && !OnlyDigits(d.name) && IsIndianMobile(d.phone)
  {
  }

  /** The user as shown after a successful save: the four edited fields replaced, the rest kept. */
  function Merged(u: UserRecord, d: ProfileData): (r: UserRecord)
    ensures r.userName == d.name && r.userEmail == d.email && r.userMobile == d.phone && r.userGender == d.gender
    ensures r.id == u.id && r.role == u.role
  {
    u.(userName := d.name, userEmail := d.email, userMobile := d.phone, userGender := d.gender)
  }

  /** The edit buffer filled from a loaded user. */
  function DataOf(u: UserRecord): ProfileData {
    ProfileData(u.userName, u.userEmail, u.userMobile, u.userGender)
  }

  /** Saving what was loaded changes nothing, and a merge followed by a reload shows the edit again. */
  lemma MergeRoundTrip(u: UserRecord, d: ProfileData)
    ensures Merged(u, DataOf(u)) == u
    ensures DataOf(Merged(u, d)) == d
  {
  }

  class ProfilePage {
    /** `localStorage.getItem("userId")` and `("token")`, read on render. */
    const userId: Option<string>
    const token: Option<string>
    var user: Option<UserRecord>
    var loading: bool
    var error: Option<string>
    var editing: bool
    var userData: ProfileData

    /** Once loading ends without an error, a user is shown. */
    ghost predicate Valid()
      reads this
    {
      !loading && error.None? ==> user.Some?
    }

    constructor (store: BrowserStorage)
      ensures userId == Present(store.local, "userId") && token == Present(store.local, "token")
      ensures user == None && loading && error == None && !editing && userData == ProfileData("", "", "", "")
      ensures Valid()
    {
      userId := Present(store.local, "userId");
      token := Present(store.local, "token");
      user, loading, error, editing := None, true, None, false;
      userData := ProfileData("", "", "", "");
    }

    /** The mount effect: without a user id or token an error is shown and nothing is fetched. */
    method Mount(fetched: Option<UserRecord>) returns (requested: bool)
      modifies this`user, this`loading, this`error, this`userData
      ensures Valid()
      ensures requested <==> userId.Some? && token.Some?
      ensures !requested ==> error == Some(MissingCredentials) && user == old(user) && userData == old(userData)
      ensures requested && fetched.Some? ==> user == fetched && userData == DataOf(fetched.value) && error == old(error)
      ensures requested && fetched.None? ==> error == Some(LoadFailed) && user == old(user)
      ensures !loading
    {
      if userId.None? || token.None? {
        error := Some(MissingCredentials);
        loading := false;
        return false;
      }
      requested := true;
      if fetched.Some? {
        user := fetched;
        userData := DataOf(fetched.value);
      } else {
        error := Some(LoadFailed);
      }
      loading := false;
    }

    method StartEditing()
      modifies this`editing
      ensures editing
    {
      editing := true;
    }

    /** `handleChange`: one input of the edit buffer is replaced. */
    method HandleChange(f: ProfileField, value: string)
      modifies this`userData
      ensures f == NameField ==> userData == old(userData).(name := value)
      ensures f == EmailField ==> userData == old(userData).(email := value)
      ensures f == PhoneField ==> userData == old(userData).(phone := value)
      ensures f == GenderField ==> userData == old(userData).(gender := value)
    {
      match f {
        case NameField => userData := userData.(name := value);
        case EmailField => userData := userData.(email := value);
        case PhoneField => userData := userData.(phone := value);
        case GenderField => userData := userData.(gender := value);
      }
    }

    /**
     * `handleSave`: an edit failing `validateFields` shows its message and sends nothing. A
     * saved edit is merged into the user and editing ends; a failed save changes nothing.
     */
    method HandleSave(succeeded: bool) returns (sent: Option<ProfileData>, alert: string)
      requires Valid() && !loading && error.None?
      modifies this`user, this`editing
      ensures Valid()
      ensures sent.Some? <==> ProfileError(userData) == None
      ensures sent.None? ==> alert == ProfileError(userData).value && user == old(user) && editing == old(editing)
      ensures sent.Some? ==> sent.value == userData
      ensures sent.Some? && succeeded ==>
                user == Some(Merged(old(user).value, userData)) && !editing && alert == Saved
      ensures sent.Some? && !succeeded ==> user == old(user) && editing == old(editing) && alert == SaveFailed
    {
      var problem := ProfileError(userData);
      if problem.Some? {
        return None, problem.value;
      }
      sent := Some(userData);
      if succeeded {
        user := Some(Merged(user.value, userData));
        editing := false;
        alert := Saved;
      } else {
        alert := SaveFailed;
      }
    }
  }
}
