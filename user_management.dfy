/** The user screen: the listed users, a `{username, password}` draft, an optional edit
    target and an error message. Unlike the product screen, no success clears the error. */
module UserManagement {
  import opened Requests

  type Id = string

  /** A user record; the listing normally omits the password, which the screen never shows. */
  datatype User = User(id: Id, username: string, password: string)

  const EmptyCredentials := Credentials("", "")

  const UsersPath := "/api/users"

  function UserPath(id: Id): string {
    UsersPath + "/" + id
  }

  lemma UserPathInjective(a: Id, b: Id)
    requires UserPath(a) == UserPath(b)
    ensures a == b
  {
    var n := |UsersPath + "/"|;
    assert a == UserPath(a)[n..];
    assert b == UserPath(b)[n..];
  }

  /** Creating a user and updating one go to different endpoints. */
  lemma AddAndUpdateDiffer(id: Id)
    ensures SignupPath != UserPath(id)
  {
    assert SignupPath[5] == 's' && UserPath(id)[5] == 'u';
  }

  const FetchError := "Error fetching users"
  const AddError := "Error adding user"
  const UpdateError := "Error updating user"
  const DeleteError := "Error deleting user"

  /** The `name` attribute of the form input an edit event comes from. */
  datatype Field = UsernameField | PasswordField

  function Get(c: Credentials, f: Field): string {
    match f
    case UsernameField => c.username
    case PasswordField => c.password
  }

  /** `{ ...newUser, [name]: value }`: only the named field changes. */
  function WithField(c: Credentials, f: Field, v: string): (r: Credentials)
    ensures Get(r, f) == v
    ensures forall g :: g != f ==> Get(r, g) == Get(c, g)
  {
    match f
    case UsernameField => c.(username := v)
    case PasswordField => c.(password := v)
  }

  /** The draft loaded for editing a user: the username, and an empty password whatever the
      stored one is. */
  function EditDraft(u: User): (r: Credentials)
    ensures r.username == u.username && r.password == ""
  {
    Credentials(u.username, "")
  }

  /** The stored password never reaches the draft: users that differ only in it give the
      same draft. */
  lemma EditIgnoresPassword(u: User, v: User)
    requires u.id == v.id && u.username == v.username
    ensures EditDraft(u) == EditDraft(v)
  {
  }

  /** The request of the form's submission, as line 113 dispatches it: PUT to the edit
      target when there is one, POST to the signup endpoint otherwise, the draft as body. */
  function SubmitRequest(draft: Credentials, editing: Option<User>): (r: Request<Credentials>)
    ensures r.Post? || r.Put?
    ensures r.body == draft
    ensures r.Put? <==> editing.Some?
    ensures editing.Some? ==> r.path == UserPath(editing.value.id)
    ensures editing.None? ==> r.path == SignupPath
  {
    match editing
    case None => Post(SignupPath, draft)
    case Some(t) => Put(UserPath(t.id), draft)
  }

  /** The state slots of the user screen and its handlers, in the shape of the product
      screen's: each handler returns its request, takes the outcome as `ok` and returns
      `refetch` when it triggers `fetchUsers`. */
  class UserScreen {
    var users: seq<User>
    var draft: Credentials
    var editing: Option<User>
    var error: string

    constructor ()
      ensures users == [] && draft == EmptyCredentials && editing == None && error == ""
    {
      users := [];
      draft := EmptyCredentials;
      editing := None;
      error := "";
    }

    /** `fetchUsers`: on success the list becomes the server's list, on failure it stays
        and the error is set. */
    method FetchUsers(response: Option<seq<User>>) returns (req: Request<Credentials>)
      modifies this`users, this`error
      ensures req == Get(UsersPath)
      ensures response.Some? ==> users == response.value && error == old(error)
      ensures response.None? ==> users == old(users) && error == FetchError
    {
      req := Get(UsersPath);
      match response
      case Some(data) =>
        users := data;
      case None =>
        error := FetchError;
    }

    /** `handleInputChange`. */
    method HandleInputChange(f: Field, v: string)
      modifies this`draft
      ensures draft == WithField(old(draft), f, v)
    {
      draft := WithField(draft, f, v);
    }

    /** `handleAddUser`: POST the draft to the signup endpoint; success resets the draft and
        refetches, failure sets the error. */
    method HandleAddUser(ok: bool) returns (req: Request<Credentials>, refetch: bool)
      modifies this`draft, this`error
      ensures req == Post(SignupPath, old(draft))
      ensures refetch == ok
      ensures ok ==> draft == EmptyCredentials && error == old(error)
      ensures !ok ==> draft == old(draft) && error == AddError
    {
      req := Post(SignupPath, draft);
      refetch := ok;
      if ok {
        draft := EmptyCredentials;
      } else {
        error := AddError;
      }
    }

    /** `handleEditUser`. */
    method HandleEditUser(u: User)
      modifies this`draft, this`editing
      ensures editing == Some(u) && draft == EditDraft(u)
    {
      editing := Some(u);
      draft := EditDraft(u);
    }

    /** `handleUpdateUser`: PUT the draft to the edit target; success clears the target,
        resets the draft and refetches, failure sets the error. Without a target, reading
        `editingUser.id` throws before any request and lands in the same error. */
    method HandleUpdateUser(ok: bool) returns (req: Request<Credentials>, refetch: bool)
      modifies this`draft, this`editing, this`error
      ensures old(editing).None? ==> req == NoRequest && !refetch
      ensures old(editing).Some? ==> req == Put(UserPath(old(editing).value.id), old(draft)) && refetch == ok
      ensures refetch ==> draft == EmptyCredentials && editing == None && error == old(error)
      ensures !refetch ==> draft == old(draft) && editing == old(editing) && error == UpdateError
    {
      match editing
      case None =>
        req, refetch := NoRequest, false;
        error := UpdateError;
      case Some(t) =>
        req, refetch := Put(UserPath(t.id), draft), ok;
        if ok {
          editing := None;
          draft := EmptyCredentials;
        } else {
          error := UpdateError;
        }
    }

    /** The form's `onSubmit`: update when a user is being edited, add otherwise. */
    method HandleSubmit(ok: bool) returns (req: Request<Credentials>, refetch: bool)
      modifies this`draft, this`editing, this`error
      ensures req == SubmitRequest(old(draft), old(editing))
      ensures refetch == ok
      ensures ok ==> draft == EmptyCredentials && editing == None && error == old(error)
      ensures !ok ==> draft == old(draft) && editing == old(editing)
      ensures !ok ==> error == if old(editing).Some? then UpdateError else AddError
    {
      if editing.Some? {
        req, refetch := HandleUpdateUser(ok);
      } else {
        req, refetch := HandleAddUser(ok);
      }
    }

    /** `handleDeleteUser`: DELETE the user; a success refetches, a failure sets the error. */
    method HandleDeleteUser(id: Id, ok: bool) returns (req: Request<Credentials>, refetch: bool)
      modifies this`error
      ensures req == Delete(UserPath(id))
      ensures refetch == ok
      ensures error == if ok then old(error) else DeleteError
    {
      req := Delete(UserPath(id));
      refetch := ok;
      if !ok {
        error := DeleteError;
      }
    }
  }
}
