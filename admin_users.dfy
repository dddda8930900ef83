/**
 * The admin "User List": paging with guarded next/previous handlers, the edit modal
 * whose inputs filter what may be typed, validation before the update request,
 * replacement of the edited user in the list, and deletion behind a confirmation.
 */
module AdminUsers {
  import opened Wrappers
  import opened JsText
  import opened Lists
  import opened Pagination

  datatype User = User(id: string, name: string, email: string, mobile: string, gender: string)

  /** The named inputs of the edit modal. */
  datatype UserField = NameInput | EmailInput | MobileInput | GenderInput

  function UserId(u: User): string { u.id }

  const AllFieldsRequired := "All fields are required!"
  const MobileMustBeTen := "Mobile number must be exactly 10 digits."
  const FetchFailed := "Failed to fetch users"
  const UpdatedMessage := "User updated successfully!"
  const UpdateFailed := "Failed to update user"
  const UserDeleted := "User has been deleted."
  const DeleteFailed := "Failed to delete user."

  /** `/^[A-Za-z\s]*$/`: letters and white space only. */
  predicate NameTextAllowed(v: string) {
    forall i :: 0 <= i < |v| ==> IsAsciiLetter(v[i]) || IsJsSpace(v[i])
  }

  /** `/^\d{0,10}$/`: at most ten digits. */
  predicate MobileTextAllowed(v: string) { |v| <= 10 && AllDigits(v) }

  /** `/^\d{10}$/` */
  predicate TenDigits(v: string) { |v| == 10 && AllDigits(v) }

  function WithField(u: User, f: UserField, v: string): User {
    match f
    case NameInput => u.(name := v)
    case EmailInput => u.(email := v)
    case MobileInput => u.(mobile := v)
    case GenderInput => u.(gender := v)
  }

  /** `handleEditChange`: a rejected name or mobile leaves the edit state as it was. */
  function EditChange(u: User, f: UserField, v: string): (r: User)
    ensures f == NameInput && !NameTextAllowed(v) ==> r == u
    ensures f == MobileInput && !MobileTextAllowed(v) ==> r == u
    ensures f == NameInput && NameTextAllowed(v) ==> r == u.(name := v)
    ensures f == MobileInput && MobileTextAllowed(v) ==> r == u.(mobile := v)
    ensures f == EmailInput ==> r == u.(email := v)
    ensures f == GenderInput ==> r == u.(gender := v)
  {
    if f == NameInput && !NameTextAllowed(v) then u
    else if f == MobileInput && !MobileTextAllowed(v) then u
    else WithField(u, f, v)
  }

  /** Typing keeps a well-formed edit state well formed: the mobile stays at most ten digits. */
  lemma EditChangeKeepsMobileShort(u: User, f: UserField, v: string)
    requires MobileTextAllowed(u.mobile) && NameTextAllowed(u.name)
    ensures MobileTextAllowed(EditChange(u, f, v).mobile) && NameTextAllowed(EditChange(u, f, v).name)
  {
  }

  /** What `updateUser` checks before it sends the edit state. */
  predicate UpdateAllowed(u: User) {
    !IsBlank(u.name) && u.gender != "" && TenDigits(u.mobile)
  }

  /** The alert `updateUser` raises before sending, or None when it sends. */
  function UpdateRefusal(u: User): Option<string> {
    if IsBlank(u.name) || IsBlank(u.mobile) || u.gender == "" then Some(AllFieldsRequired)
    else if !TenDigits(u.mobile) then Some(MobileMustBeTen)
    else None
  }

  /** `updateUser` sends exactly when the name is not blank, a gender is chosen and the mobile is ten digits. */
  lemma UpdateAcceptedIff(u: User)
    ensures UpdateRefusal(u) == None <==> UpdateAllowed(u)
  {
    if TenDigits(u.mobile) {
      assert !IsJsSpace(u.mobile[0]);
    }
  }

  /** `users.map(user => user._id === edited._id ? edited : user)` */
  function ReplaceUser(users: seq<User>, edited: User): seq<User> {
    MapKey(users, UserId, edited.id, _ => edited)
  }

  /** The edited user takes the place of every user with its id; nothing else moves. */
  lemma ReplaceUserSpec(users: seq<User>, edited: User, i: nat)
    requires i < |users|
    ensures |ReplaceUser(users, edited)| == |users|
    ensures users[i].id == edited.id ==> ReplaceUser(users, edited)[i] == edited
    ensures users[i].id != edited.id ==> ReplaceUser(users, edited)[i] == users[i]
  {
  }

  class UsersTable {
    var users: seq<User>
    var loading: bool
    var error: Option<string>
    var successMessage: string
    var currentPage: int
    var showEditModal: bool
    var editUserData: User

    ghost predicate Valid()
      reads this
    {
      currentPage >= 1
    }

    constructor ()
      ensures Valid()
      ensures users == [] && loading && error == None && successMessage == "" && currentPage == 1
      ensures !showEditModal && editUserData == User("", "", "", "", "")
    {
      users, loading, error, successMessage := [], true, None, "";
      currentPage := 1;
      showEditModal, editUserData := false, User("", "", "", "", "");
    }

    function TotalPages(): nat
      reads this
    {
      PageCount(|users|)
    }

    /** `users.slice(indexOfFirstUser, indexOfLastUser)` */
    function CurrentUsers(): (r: seq<User>)
      reads this
      requires Valid()
      ensures |r| <= PageSize
      ensures r == users[Min((currentPage - 1) * PageSize, |users|)..Min(currentPage * PageSize, |users|)]
    {
      PageSliceBounds(users, currentPage);
      PageSlice(users, currentPage)
    }

    method FetchUsers(response: Option<seq<User>>)
      requires Valid()
      modifies this`users, this`error, this`loading
      ensures Valid() && !loading
      ensures response.Some? ==> users == response.value && error == old(error)
      ensures response.None? ==> users == old(users) && error == Some(FetchFailed)
    {
      if response.Some? {
        users := response.value;
      } else {
        error := Some(FetchFailed);
      }
      loading := false;
    }

    /** The page returns early while loading and after an error, so the pager exists only otherwise. */
    predicate TableShown()
      reads this
    {
      !loading && (error.None? || error.value == "")
    }

    /** `nextPage` from the rendered pager: advance only while a later page exists. */
    method NextPage()
      requires Valid()
      modifies this`currentPage
      ensures Valid()
      ensures TableShown() && old(currentPage) < TotalPages() ==> currentPage == old(currentPage) + 1
      ensures !TableShown() || old(currentPage) >= TotalPages() ==> currentPage == old(currentPage)
      ensures currentPage != old(currentPage) ==> currentPage <= TotalPages() && CurrentUsers() != []
    {
      if TableShown() && currentPage < TotalPages() {
        currentPage := currentPage + 1;
        PageNonEmptyIffInRange(users, currentPage);
      }
    }

    /** `prevPage` from the rendered pager: go back only from a page after the first. */
    method PrevPage()
      requires Valid()
      modifies this`currentPage
      ensures Valid()
      ensures currentPage == if TableShown() && old(currentPage) > 1 then old(currentPage) - 1 else old(currentPage)
    {
      if TableShown() && currentPage > 1 {
        currentPage := currentPage - 1;
      }
    }

    method OpenEditModal(u: User)
      modifies this`editUserData, this`showEditModal
      ensures editUserData == u && showEditModal
    {
      editUserData := u;
      showEditModal := true;
    }

    method CloseEditModal()
      modifies this`showEditModal
      ensures !showEditModal
    {
      showEditModal := false;
    }

    method HandleEditChange(f: UserField, v: string)
      modifies this`editUserData
      ensures editUserData == EditChange(old(editUserData), f, v)
    {
      editUserData := EditChange(editUserData, f, v);
    }

    /**
     * `updateUser`: alert and send nothing when validation fails; otherwise send the
     * edit state, and on success put it in place of the user with its id.
     */
    method UpdateUser(succeeded: bool) returns (sent: Option<User>, alert: Option<string>)
      requires Valid()
      modifies this`users, this`showEditModal, this`successMessage
      ensures Valid()
      ensures !UpdateAllowed(editUserData) ==>
                (alert == UpdateRefusal(editUserData) && alert.Some? && sent == None && users == old(users)
                 && showEditModal == old(showEditModal) && successMessage == old(successMessage))
      ensures UpdateAllowed(editUserData) ==> sent == Some(editUserData)
      ensures UpdateAllowed(editUserData) && succeeded ==>
                (alert == None && users == ReplaceUser(old(users), editUserData) && !showEditModal
                 && successMessage == UpdatedMessage)
      ensures UpdateAllowed(editUserData) && !succeeded ==>
                (alert == Some(UpdateFailed) && users == old(users)
                 && showEditModal == old(showEditModal) && successMessage == old(successMessage))
    {
      if !UpdateAllowed(editUserData) {
        UpdateAcceptedIff(editUserData);
        sent, alert := None, UpdateRefusal(editUserData);
      } else {
        sent := Some(editUserData);
        alert := SendUpdate(succeeded);
      }
    }

    /** The request half of `updateUser`, reached only with a valid edit state. */
    method SendUpdate(succeeded: bool) returns (alert: Option<string>)
      requires Valid() && UpdateAllowed(editUserData)
      modifies this`users, this`showEditModal, this`successMessage
      ensures Valid()
      ensures succeeded ==>
                (alert == None && users == ReplaceUser(old(users), editUserData) && !showEditModal
                 && successMessage == UpdatedMessage)
      ensures !succeeded ==>
                (alert == Some(UpdateFailed) && users == old(users)
                 && showEditModal == old(showEditModal) && successMessage == old(successMessage))
    {
      if succeeded {
        alert := None;
        users := ReplaceUser(users, editUserData);
        showEditModal := false;
        successMessage := UpdatedMessage;
      } else {
        alert := Some(UpdateFailed);
      }
    }

    /**
     * `confirmDeleteUser` then `deleteUser`: only a confirmed, successful delete drops the user;
     * a sent delete reports its outcome.
     */
    method DeleteUser(id: string, confirmed: bool, succeeded: bool) returns (deleteSent: bool, alert: string)
      requires Valid()
      modifies this`users
      ensures Valid()
      ensures deleteSent == confirmed
      ensures users == if confirmed && succeeded then RemoveKey(old(users), UserId, id) else old(users)
      ensures !confirmed ==> alert == ""
      ensures confirmed && succeeded ==> alert == UserDeleted
      ensures confirmed && !succeeded ==> alert == DeleteFailed
    {
      deleteSent, alert := confirmed, "";
      if confirmed && succeeded {
        users := RemoveKey(users, UserId, id);
        alert := UserDeleted;
      } else if confirmed {
        alert := DeleteFailed;
      }
    }
  }
}
