/**
 * The authentication routes over the user table: `/signup` inserts a user
 * whose stored password is the bcrypt hash of the given one, `/login`
 * checks a password against the stored hash, `/me` returns a user without
 * the password. bcrypt (`genSalt`, `hash`, `compare`) and JWT `sign` are
 * uninterpreted functions passed in; the salt is what `genSalt(10)` gave.
 * The table is a sequence in insertion order, so `findOne` is "the first
 * match".
 */
module AuthRoutes {
  import opened Wrappers

  type UserId = nat

  /** A stored user; `password` holds the hash, never the plaintext. */
  datatype User = User(id: UserId, name: string, email: string, password: string)

  /** What the routes send back for a user: there is no password field. */
  datatype Profile = Profile(id: UserId, name: string, email: string)

  /** The JWT payload: only the user's id. */
  datatype Claims = Claims(id: UserId)

  /** The arguments handed to `jwt.sign` besides the secret. */
  datatype SignRequest = SignRequest(payload: Claims, expiresIn: string)

  const TokenLifetime: string := "7d"

  datatype Body =
    | Registered(message: string, token: string, user: Profile)
    | Session(token: string, user: Profile)
    | Me(profile: Option<Profile>)
    | Notice(message: string)

  datatype Response = Response(status: nat, body: Body)

  const InvalidCredentials: Response := Response(400, Notice("Invalid credentials"))
  const UserExists: Response := Response(400, Notice("User already exists"))

  function PublicProfile(u: User): Profile
  {
    Profile(u.id, u.name, u.email)
  }

  /** The token issued for a user: their id, valid for seven days. */
  function TokenFor(id: UserId, sign: SignRequest -> string): string
  {
    sign(SignRequest(Claims(id), TokenLifetime))
  }

  /** The first user in table order that satisfies `p`, if any: what a single-document query returns. */
  function FindFirst(users: seq<User>, p: User -> bool): (r: Option<User>)
    ensures r.Some? ==> r.value in users && p(r.value)
    ensures r.None? <==> forall u | u in users :: !p(u)
    ensures r.Some? ==> exists i | 0 <= i < |users| :: users[i] == r.value && forall j | 0 <= j < i :: !p(users[j])
  {
    if users == [] then None
    else if p(users[0]) then Some(users[0])
    else
      var r := FindFirst(users[1..], p);
      assert r.Some? ==> forall i | 0 <= i < |users[1..]| :: users[1..][i] == users[i + 1];
      r
  }

  /** The query condition `{email}`. */
  function HasEmail(email: string): User -> bool
  {
    (u: User) => u.email == email
  }

  /** The query condition `{_id: id}`. */
  function HasId(id: UserId): User -> bool
  {
    (u: User) => u.id == id
  }

  /** `User.findOne({email})`: the first user with that email, if any. */
  function FindByEmail(users: seq<User>, email: string): (r: Option<User>)
    ensures r.Some? ==> r.value in users && r.value.email == email
    ensures r.None? <==> forall u | u in users :: u.email != email
  {
    FindFirst(users, HasEmail(email))
  }

  /** `User.findById(id)`: the user with that id, if any. */
  function FindById(users: seq<User>, id: UserId): (r: Option<User>)
    ensures r.Some? ==> r.value in users && r.value.id == id
    ensures r.None? <==> forall u | u in users :: u.id != id
  {
    FindFirst(users, HasId(id))
  }

  /**
   * `POST /login`. An unknown email and a wrong password give the very same
   * answer; on success the token carries the user's id.
   */
  function Login(users: seq<User>, email: string, password: string,
                 compare: (string, string) -> bool, sign: SignRequest -> string): (r: Response)
    ensures r.status == 200 || r == InvalidCredentials
    ensures r.status == 200 <==> FindByEmail(users, email).Some? && compare(password, FindByEmail(users, email).value.password)
    ensures r.status == 200 ==>
              var u := FindByEmail(users, email).value;
              r == Response(200, Session(TokenFor(u.id, sign), PublicProfile(u)))
  {
    match FindByEmail(users, email)
    case None => InvalidCredentials
    case Some(u) =>
      if !compare(password, u.password) then InvalidCredentials
      else Response(200, Session(TokenFor(u.id, sign), PublicProfile(u)))
  }

  /** `GET /me`: the caller's record without the password; `null` (still 200) when the id is not in the table. */
  function CurrentUser(users: seq<User>, caller: UserId): (r: Response)
    ensures r.status == 200 && r.body.Me?
    ensures r.body.profile.Some? <==> exists u :: u in users && u.id == caller
    ensures r.body.profile.Some? ==>
              exists u :: u in users && u.id == caller && PublicProfile(u) == r.body.profile.value
  {
    match FindById(users, caller)
    case None => Response(200, Me(None))
    case Some(u) => Response(200, Me(Some(PublicProfile(u))))
  }

  /** Emails and ids are unique. */
  ghost predicate WellFormed(users: seq<User>)
  {
    forall i, j | 0 <= i < j < |users| :: users[i].email != users[j].email && users[i].id != users[j].id
  }

  class UserTable {
    var users: seq<User>
    var nextId: UserId

    ghost predicate Valid()
      reads this
    {
      && WellFormed(users)
      && forall u | u in users :: u.id < nextId
    }

    constructor ()
      ensures Valid() && users == []
    {
      users, nextId := [], 0;
    }

    /**
     * `POST /signup`. An email already in the table gives 400 and adds
     * nothing; otherwise exactly one user is appended, storing
     * `hash(password, salt)`, and the answer is 201 with a token and the
     * profile.
     */
    method Signup(name: string, email: string, password: string, salt: string,
                  hash: (string, string) -> string, sign: SignRequest -> string) returns (resp: Response)
      requires Valid()
      modifies this
      ensures Valid()
      ensures old(FindByEmail(users, email)).Some? ==>
                resp == UserExists && users == old(users) && nextId == old(nextId)
      ensures old(FindByEmail(users, email)).None? ==>
                var u := User(old(nextId), name, email, hash(password, salt));
                && users == old(users) + [u]
                && resp == Response(201, Registered("User registered successfully", TokenFor(u.id, sign), PublicProfile(u)))
    {
      if FindByEmail(users, email).Some? {
        return UserExists;
      }
      var hashed := hash(password, salt);
      var u := User(nextId, name, email, hashed);
      users := users + [u];
      nextId := nextId + 1;
      resp := Response(201, Registered("User registered successfully", TokenFor(u.id, sign), PublicProfile(u)));
    }
  }

  /** Appending a user changes a lookup only when nothing earlier matched: then the new user is found if it matches. */
  lemma {:induction false} FindFirstAppend(users: seq<User>, u: User, p: User -> bool)
    ensures FindFirst(users + [u], p) ==
              if FindFirst(users, p).Some? then FindFirst(users, p)
              else if p(u) then Some(u) else None
  {
    if users != [] {
      assert (users + [u])[1..] == users[1..] + [u];
      FindFirstAppend(users[1..], u, p);
    } else {
      assert [u][1..] == [];
    }
  }

  /** Appending a user with a new email does not change who the other emails find. */
  lemma FindByEmailAppend(users: seq<User>, u: User, email: string)
    ensures FindByEmail(users + [u], email) ==
              if FindByEmail(users, email).Some? then FindByEmail(users, email)
              else if u.email == email then Some(u) else None
  {
    FindFirstAppend(users, u, HasEmail(email));
  }

  /**
   * Signing up and then logging in with the same email and password (when
   * bcrypt's compare accepts the hash it produced) yields a token for the
   * new user's id and the user's profile.
   */
  lemma SignupThenLogin(users: seq<User>, id: UserId, name: string, email: string, password: string, salt: string,
                        hash: (string, string) -> string, compare: (string, string) -> bool, sign: SignRequest -> string)
    requires FindByEmail(users, email).None?
    requires compare(password, hash(password, salt))
    ensures var u := User(id, name, email, hash(password, salt));
            Login(users + [u], email, password, compare, sign) ==
              Response(200, Session(TokenFor(id, sign), Profile(id, name, email)))
  {
    FindByEmailAppend(users, User(id, name, email, hash(password, salt)), email);
  }

  /** Login reveals nothing about whether an email exists: an unknown email and a wrong password answer alike. */
  lemma LoginDoesNotEnumerate(users: seq<User>, unknown: string, known: string, wrong: string,
                              compare: (string, string) -> bool, sign: SignRequest -> string)
    requires FindByEmail(users, unknown).None?
    requires FindByEmail(users, known).Some? && !compare(wrong, FindByEmail(users, known).value.password)
    ensures Login(users, unknown, wrong, compare, sign) == Login(users, known, wrong, compare, sign) == InvalidCredentials
  {
  }
}
