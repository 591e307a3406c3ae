/** Account registration: a new user row after the required fields, the
    role and the uniqueness of the email have been checked. */
module Register {
  import opened Common
  import opened Schema

  /** The JSON body; an absent field is None. */
  datatype RegisterRequest = RegisterRequest(name: Option<string>, email: Option<string>, password: Option<string>, role: Option<string>)

  /** The columns the handler selects for its answer: never the password. */
  datatype UserView = UserView(id: string, name: Option<string>, email: string, role: Role, createdAt: int)

  datatype RegisterResult = Registered(message: string, user: UserView) | RegisterRejected(status: int, error: string)

  predicate EmailTaken(users: seq<User>, email: string) {
    exists k :: 0 <= k < |users| && users[k].email == email
  }

  function FindEmail(users: seq<User>, email: string): (r: bool)
    ensures r <==> EmailTaken(users, email)
  {
    if users == [] then false
    else if users[0].email == email then true
    else
      assert forall k :: 1 <= k < |users| ==> users[k] == users[1..][k - 1];
      FindEmail(users[1..], email)
  }

  /** The handler's answer when it does not insert, in the order it tests:
      always a 400, and none exactly when all four fields are given, the role
      is one of the enum's spellings and the email is not yet registered. */
  function RegisterRejection(req: RegisterRequest, users: seq<User>): (r: Option<RegisterResult>)
    ensures r.Some? ==> r.value.RegisterRejected? && r.value.status == 400
    ensures r.None? <==>
      && Filled(req.name) && Filled(req.email) && Filled(req.password) && Filled(req.role)
      && ParseRole(req.role.value).Some?
      && !EmailTaken(users, req.email.value)
  {
    if !Filled(req.name) || !Filled(req.email) || !Filled(req.password) || !Filled(req.role) then
      Some(RegisterRejected(400, "Missing required fields"))
    else if ParseRole(req.role.value).None? then Some(RegisterRejected(400, "Invalid role"))
    else if EmailTaken(users, req.email.value) then Some(RegisterRejected(400, "User with this email already exists"))
    else None
  }

  /** The row inserted: the hashed password, the requested role, and the
      email marked verified. */
  function NewUser(req: RegisterRequest, id: string, hashed: string, now: int): (u: User)
    requires RegisterRejection(req, []).None?
    ensures RoleName(u.role) == req.role.value
    ensures u.emailVerified && u.password == hashed
    ensures View(u) == UserView(id, req.name, req.email.value, u.role, now)
  {
    User(id, req.name, req.email.value, hashed, ParseRole(req.role.value).value, true, now)
  }

  function View(u: User): UserView {
    UserView(u.id, u.name, u.email, u.role, u.createdAt)
  }

  predicate UniqueEmails(users: seq<User>) {
    forall i, j :: 0 <= i < j < |users| ==> users[i].email != users[j].email
  }

  class UserStore {
    var users: seq<User>

    constructor (users: seq<User>)
      ensures this.users == users
    {
      this.users := users;
    }

    /** `POST /api/auth/register`. `hashed` is what `bcrypt.hash(password, 12)`
        returns; `id` and `now` are what the database assigns. */
    method Register(req: RegisterRequest, hashed: string, id: string, now: int) returns (res: RegisterResult)
      modifies this
      ensures RegisterRejection(req, old(users)).Some? ==>
        res == RegisterRejection(req, old(users)).value && users == old(users)
      ensures RegisterRejection(req, old(users)).None? ==>
        && users == old(users) + [NewUser(req, id, hashed, now)]
        && res == Registered("User created successfully", View(NewUser(req, id, hashed, now)))
    {
      if !Filled(req.name) || !Filled(req.email) || !Filled(req.password) || !Filled(req.role) {
        return RegisterRejected(400, "Missing required fields");
      }
      var role := ParseRole(req.role.value);
      if role.None? {
        return RegisterRejected(400, "Invalid role");
      }
      if FindEmail(users, req.email.value) {
        return RegisterRejected(400, "User with this email already exists");
      }
      var user := User(id, req.name, req.email.value, hashed, role.value, true, now);
      users := users + [user];
      res := Registered("User created successfully", View(user));
    }
  }

  /** A registration that passes the guards keeps emails unique. */
  lemma RegisterKeepsEmailsUnique(req: RegisterRequest, users: seq<User>, id: string, hashed: string, now: int)
    requires UniqueEmails(users)
    requires RegisterRejection(req, users).None?
    ensures UniqueEmails(users + [NewUser(req, id, hashed, now)])
  {
    var users' := users + [NewUser(req, id, hashed, now)];
    forall i, j | 0 <= i < j < |users'|
      ensures users'[i].email != users'[j].email
    {
      if j == |users| {
        assert users'[i] == users[i];
      }
    }
  }

  /** After one registration, any complete request with the same email and
      a valid role is refused. */
  lemma SecondRegistrationRejected(first: RegisterRequest, second: RegisterRequest, users: seq<User>,
                                   id: string, hashed: string, now: int)
    requires RegisterRejection(first, users).None?
    requires RegisterRejection(second, []).None?
    requires second.email == first.email
    ensures RegisterRejection(second, users + [NewUser(first, id, hashed, now)]) ==
      Some(RegisterRejected(400, "User with this email already exists"))
  {
    var users' := users + [NewUser(first, id, hashed, now)];
    assert users'[|users|].email == second.email.value;
  }
}
