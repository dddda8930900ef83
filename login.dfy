/**
 * The login page: a failed login only shows an error; a successful one stores the
 * user's fields and token, stores the role only if none is stored yet, and sends
 * admins to the admin panel and everyone else to the home page.
 */
module Login {
  import opened Wrappers
  import opened Session

  /** The user fields of a successful reply's `data`. */
  datatype LoginData = LoginData(userId: string, userName: string, userEmail: string,
                                 userMobile: string, userGender: string, userRole: string)

  /**
   * How the post ended: a reply with status "fail" (and maybe a `Message`), any other reply
   * (with `data` and `token`), or a thrown error (maybe with `response.data.message`).
   */
  datatype LoginReply = Fail(message: Option<string>) | Success(data: LoginData, token: string) | Threw(message: Option<string>)

  const InvalidCredentials := "Invalid email or password."
  const SomethingWrong := "Something went wrong. Please try again."

  /** `a || b` for an optional message and a default. */
  function OrDefault(m: Option<string>, default: string): (r: string)
    ensures Truthy(m) ==> r == m.value
    ensures !Truthy(m) ==> r == default
    ensures default != "" ==> r != ""
  {
    if Truthy(m) then m.value else default
  }

  /** The route the page navigates to after a successful login. */
  function RedirectTarget(role: string): (route: string)
    ensures route == "/admin" <==> role == "admin"
    ensures route != "/admin" ==> route == "/"
  {
    if role == "admin" then "/admin" else "/"
  }

  /** The welcome toast, naming the user and where the page is going. */
  function WelcomeMessage(d: LoginData): string {
    "\U{2705} Welcome, " + d.userName + "! Redirecting to "
      + (if d.userRole == "admin" then "Admin Panel" else "Our Home Page") + "..."
  }

  /** `localStorage` after a successful login: six fields written, and the role only when none is stored. */
  function AfterLogin(local: map<string, string>, d: LoginData, token: string): map<string, string> {
    var written := local["userId" := d.userId]["name" := d.userName]["email" := d.userEmail]
                        ["phone" := d.userMobile]["gender" := d.userGender]["token" := token];
    if Present(local, "user_role").None? then written["user_role" := d.userRole] else written
  }

  /** The six fields hold the new user's values; every other key but the role is untouched. */
  lemma AfterLoginWrites(local: map<string, string>, d: LoginData, token: string)
    ensures var m := AfterLogin(local, d, token);
            && m["userId"] == d.userId && m["name"] == d.userName && m["email"] == d.userEmail
            && m["phone"] == d.userMobile && m["gender"] == d.userGender && m["token"] == token
            && Present(m, "token") == (if token != "" then Some(token) else None)
            && forall k :: k in local && k !in {"userId", "name", "email", "phone", "gender", "token", "user_role"} ==>
                             k in m && m[k] == local[k]
  {
  }

  /** The role is written once: an existing non-empty role survives a login, and a missing one is set. */
  lemma RoleWrittenOnce(local: map<string, string>, d: LoginData, token: string)
    ensures Present(local, "user_role").Some? ==> AfterLogin(local, d, token)["user_role"] == local["user_role"]
    ensures Present(local, "user_role").None? ==> AfterLogin(local, d, token)["user_role"] == d.userRole
  {
  }

  /** Two logins without a logout in between: the stored role is the first one's when none was stored before. */
  lemma SecondLoginKeepsRole(local: map<string, string>, d1: LoginData, t1: string, d2: LoginData, t2: string)
    requires Present(local, "user_role").None? && d1.userRole != ""
    ensures AfterLogin(AfterLogin(local, d1, t1), d2, t2)["user_role"] == d1.userRole
  {
    var first := AfterLogin(local, d1, t1);
    RoleWrittenOnce(local, d1, t1);
    assert Present(first, "user_role").Some?;
    RoleWrittenOnce(first, d2, t2);
  }

  class LoginPage {
    var email: string
    var password: string
    var error: string
    var loading: bool
    var showToast: bool
    var toastMessage: string

    constructor ()
      ensures email == "" && password == "" && error == "" && !loading && !showToast && toastMessage == ""
    {
      email, password, error := "", "", "";
      loading, showToast, toastMessage := false, false, "";
    }

    /**
     * `handleSubmit`: the previous error is cleared and loading ends with the reply. A "fail"
     * reply or a thrown error only sets the error; success writes the login and names a route.
     */
    method HandleSubmit(store: BrowserStorage, reply: LoginReply) returns (redirectTo: Option<string>)
      modifies this`error, this`loading, this`showToast, this`toastMessage, store`local
      ensures !loading
      ensures redirectTo.Some? <==> reply.Success?
      ensures !reply.Success? ==> store.local == old(store.local) && showToast == old(showToast)
      ensures !reply.Success? ==> toastMessage == old(toastMessage)
      ensures reply.Fail? ==> error == OrDefault(reply.message, InvalidCredentials)
      ensures reply.Threw? ==> error == OrDefault(reply.message, SomethingWrong)
      ensures reply.Success? ==>
                && error == "" && showToast && toastMessage == WelcomeMessage(reply.data)
                && store.local == AfterLogin(old(store.local), reply.data, reply.token)
                && redirectTo == Some(RedirectTarget(reply.data.userRole))
    {
      loading := true;
      error := "";
      match reply {
        case Fail(message) =>
          loading := false;
          error := OrDefault(message, InvalidCredentials);
          redirectTo := None;
        case Threw(message) =>
          loading := false;
          error := OrDefault(message, SomethingWrong);
          redirectTo := None;
        case Success(d, token) =>
          loading := false;
          var roleStored := Present(store.local, "user_role").Some?;
          store.local := store.local["userId" := d.userId];
          store.local := store.local["name" := d.userName];
          store.local := store.local["email" := d.userEmail];
          store.local := store.local["phone" := d.userMobile];
          store.local := store.local["gender" := d.userGender];
          store.local := store.local["token" := token];
          if !roleStored {
            store.local := store.local["user_role" := d.userRole];
          }
          toastMessage := WelcomeMessage(d);
          showToast := true;
          redirectTo := Some(RedirectTarget(d.userRole));
      }
    }
  }
}
